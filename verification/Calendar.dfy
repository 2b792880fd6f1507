/** The proleptic Gregorian calendar of Python's datetime, and relativedelta's month addition. */
module Calendar {
  import opened Wrappers

  datatype Date = Date(year: int, month: int, day: int)

  predicate Leap(year: int) {
    year % 4 == 0 && (year % 100 != 0 || year % 400 == 0)
  }

  function DaysInMonth(year: int, month: int): int {
    if month == 2 then if Leap(year) then 29 else 28
    else if month == 4 || month == 6 || month == 9 || month == 11 then 30
    else 31
  }

  /** datetime.MINYEAR and MAXYEAR bound the years. */
  predicate Valid(d: Date) {
    1 <= d.year <= 9999 && 1 <= d.month <= 12 && 1 <= d.day <= DaysInMonth(d.year, d.month)
  }

  predicate Before(a: Date, b: Date) {
    a.year < b.year || (a.year == b.year && (a.month < b.month || (a.month == b.month && a.day < b.day)))
  }

  // ---- Ordinals ----

  function DaysBeforeYear(year: int): int {
    var y := year - 1;
    y * 365 + y / 4 - y / 100 + y / 400
  }

  function DaysBeforeMonth(year: int, month: int): int
    requires 1 <= month <= 12
    decreases month
  {
    if month == 1 then 0 else DaysBeforeMonth(year, month - 1) + DaysInMonth(year, month - 1)
  }

  /** date.toordinal(): 1 January of year 1 is day 1. */
  function Ordinal(d: Date): int
    requires 1 <= d.month <= 12
  {
    DaysBeforeYear(d.year) + DaysBeforeMonth(d.year, d.month) + d.day
  }

  lemma Fourths(y: int)
    ensures y / 4 - (y - 1) / 4 == if y % 4 == 0 then 1 else 0
  {
  }

  lemma Hundredths(y: int)
    ensures y / 100 - (y - 1) / 100 == if y % 100 == 0 then 1 else 0
  {
  }

  lemma FourHundredths(y: int)
    ensures y / 400 - (y - 1) / 400 == if y % 400 == 0 then 1 else 0
  {
  }

  lemma ByFour(q: int)
    ensures q * 4 % 4 == 0
  {
  }

  lemma ByHundred(q: int)
    ensures q * 100 % 100 == 0
  {
  }

  lemma CenturiesNest(y: int)
    ensures (y % 400 == 0 ==> y % 100 == 0) && (y % 100 == 0 ==> y % 4 == 0)
  {
    if y % 400 == 0 {
      var q := y / 400;
      assert y == (q * 4) * 100;
      ByHundred(q * 4);
    }
    if y % 100 == 0 {
      var q := y / 100;
      assert y == (q * 25) * 4;
      ByFour(q * 25);
    }
  }

  lemma YearLength(year: int)
    ensures DaysBeforeYear(year + 1) - DaysBeforeYear(year) == 365 + if Leap(year) then 1 else 0
  {
    Fourths(year);
    Hundredths(year);
    FourHundredths(year);
    CenturiesNest(year);
  }

  lemma DaysBeforeDecember(year: int)
    ensures DaysBeforeMonth(year, 12) == 334 + if Leap(year) then 1 else 0
  {
    assert DaysBeforeMonth(year, 3) == 59 + if Leap(year) then 1 else 0;
    assert DaysBeforeMonth(year, 5) == DaysBeforeMonth(year, 3) + 61;
    assert DaysBeforeMonth(year, 7) == DaysBeforeMonth(year, 5) + 61;
    assert DaysBeforeMonth(year, 9) == DaysBeforeMonth(year, 7) + 62;
    assert DaysBeforeMonth(year, 11) == DaysBeforeMonth(year, 9) + 61;
  }

  // ---- Months counted through the years ----

  function MonthIndex(d: Date): int {
    d.year * 12 + d.month - 1
  }

  function YearOf(index: int): int {
    index / 12
  }

  function MonthOf(index: int): (m: int)
    ensures 1 <= m <= 12
  {
    index % 12 + 1
  }

  function Length(index: int): (n: int)
    ensures 28 <= n <= 31
  {
    DaysInMonth(YearOf(index), MonthOf(index))
  }

  /** Ordinal of the day before the month begins. */
  function MonthStart(index: int): int {
    DaysBeforeYear(YearOf(index)) + DaysBeforeMonth(YearOf(index), MonthOf(index))
  }

  lemma IndexOfMonth(d: Date)
    requires 1 <= d.month <= 12
    ensures YearOf(MonthIndex(d)) == d.year && MonthOf(MonthIndex(d)) == d.month
    ensures Ordinal(d) == MonthStart(MonthIndex(d)) + d.day
  {
  }

  /** Each month begins where the one before it ends, across year boundaries too. */
  lemma MonthsAbut(index: int)
    ensures MonthStart(index + 1) == MonthStart(index) + Length(index)
  {
    var y, m := YearOf(index), MonthOf(index);
    if m == 12 {
      assert YearOf(index + 1) == y + 1 && MonthOf(index + 1) == 1;
      YearLength(y);
      DaysBeforeDecember(y);
    } else {
      assert YearOf(index + 1) == y && MonthOf(index + 1) == m + 1;
    }
  }

  lemma {:induction false} MonthsSpan(index: int, n: nat)
    ensures MonthStart(index) + 28 * n <= MonthStart(index + n) <= MonthStart(index) + 31 * n
  {
    hide MonthStart, Length;
    if n > 0 {
      MonthsSpan(index, n - 1);
      MonthsAbut(index + n - 1);
    }
  }

  lemma LaterMonthStartsLater(i: int, j: int)
    requires i < j
    ensures MonthStart(i) + Length(i) <= MonthStart(j)
  {
    hide MonthStart, Length;
    MonthsAbut(i);
    MonthsSpan(i + 1, j - i - 1);
  }

  /** The calendar's order is the order of ordinals. */
  lemma BeforeIsSmallerOrdinal(a: Date, b: Date)
    requires Valid(a) && Valid(b)
    ensures Before(a, b) <==> Ordinal(a) < Ordinal(b)
    ensures a == b <==> Ordinal(a) == Ordinal(b)
  {
    IndexOfMonth(a);
    IndexOfMonth(b);
    if MonthIndex(a) < MonthIndex(b) {
      LaterMonthStartsLater(MonthIndex(a), MonthIndex(b));
    } else if MonthIndex(b) < MonthIndex(a) {
      LaterMonthStartsLater(MonthIndex(b), MonthIndex(a));
    }
  }

  // ---- The day before ----

  /** d - timedelta(days=1); raises before 1 January of year 1. */
  function DayBefore(d: Date): Option<Date>
    requires Valid(d)
  {
    if d.day > 1 then Some(d.(day := d.day - 1))
    else if d.month > 1 then Some(Date(d.year, d.month - 1, DaysInMonth(d.year, d.month - 1)))
    else if d.year > 1 then Some(Date(d.year - 1, 12, 31))
    else None
  }

  lemma DayBeforeIsOneLess(d: Date)
    requires Valid(d)
    ensures DayBefore(d) == None <==> Ordinal(d) == 1
    ensures DayBefore(d).Some? ==> Valid(DayBefore(d).value) && Ordinal(DayBefore(d).value) == Ordinal(d) - 1
  {
    hide Ordinal;
    var first := Date(1, 1, 1);
    FirstDay();
    BeforeIsSmallerOrdinal(first, d);
    if d.day > 1 {
      WithinOneMonth(d);
    } else if d.month > 1 {
      FirstOfMonth(d.year, d.month);
    } else if d.year > 1 {
      NewYear(d.year);
    }
  }

  lemma FirstDay()
    ensures Ordinal(Date(1, 1, 1)) == 1
  {
  }

  lemma WithinOneMonth(d: Date)
    requires 1 <= d.month <= 12
    ensures Ordinal(d.(day := d.day - 1)) == Ordinal(d) - 1
  {
  }

  lemma FirstOfMonth(year: int, month: int)
    requires 2 <= month <= 12
    ensures Ordinal(Date(year, month - 1, DaysInMonth(year, month - 1))) == Ordinal(Date(year, month, 1)) - 1
  {
    hide DaysBeforeYear, DaysInMonth;
  }

  lemma NewYear(year: int)
    ensures Ordinal(Date(year - 1, 12, 31)) == Ordinal(Date(year, 1, 1)) - 1
  {
    hide DaysBeforeYear;
    YearLength(year - 1);
    DaysBeforeDecember(year - 1);
  }

  // ---- relativedelta(months=n) ----

  /** The same day n months on, clamped to the end of that month; raises when the year leaves
      the calendar. */
  function AddMonths(d: Date, n: nat): Option<Date>
    requires Valid(d)
  {
    var index := MonthIndex(d) + n;
    if YearOf(index) > 9999 then None
    else Some(Date(YearOf(index), MonthOf(index), if d.day <= Length(index) then d.day else Length(index)))
  }

  lemma AddMonthsLands(d: Date, n: nat)
    requires Valid(d) && AddMonths(d, n).Some?
    ensures var e := AddMonths(d, n).value;
            && Valid(e) && MonthIndex(e) == MonthIndex(d) + n && e.day <= d.day
            && (e.day < d.day ==> e.day == Length(MonthIndex(e)))
  {
    var index := MonthIndex(d) + n;
    assert YearOf(index) >= d.year by {
      IndexOfMonth(d);
    }
  }
}
