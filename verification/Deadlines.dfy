/** Limitation dates: a number of months after the event, less one day. */
module Deadlines {
  import opened Wrappers
  import opened Calendar

  /** (event + relativedelta(months=n) - timedelta(days=1)).date(); None stands for the error
      raised when the calendar is left. */
  function LimitationDate(event: Date, months: nat): Option<Date>
    requires Valid(event)
  {
    var target := AddMonths(event, months);
    if target == None then None
    else
      AddMonthsLands(event, months);
      DayBefore(target.value)
  }

  /** The month after m months has no later days than the clamped one it lands in. */
  lemma TargetOrdinal(event: Date, months: nat)
    requires Valid(event) && months >= 1 && AddMonths(event, months).Some?
    ensures var target := AddMonths(event, months).value;
            Ordinal(event) + 28 * months <= Ordinal(target) <= Ordinal(event) + 31 * months
  {
    hide MonthStart, Length, Ordinal;
    var target := AddMonths(event, months).value;
    var index := MonthIndex(event);
    AddMonthsLands(event, months);
    IndexOfMonth(event);
    IndexOfMonth(target);
    MonthsSpan(index, months);
    MonthsAbut(index);
    MonthsSpan(index + 1, months - 1);
    assert event.day <= Length(index) by {
      WithinMonth(event);
    }
  }

  lemma WithinMonth(d: Date)
    requires Valid(d)
    ensures 1 <= d.day <= Length(MonthIndex(d))
  {
    IndexOfMonth(d);
  }

  /** For every event date, leap years and clamping included, the limitation date of m >= 1 months
      lies 28m - 1 to 31m - 1 days after the event. */
  lemma DeadlineBounds(event: Date, months: nat)
    requires Valid(event) && months >= 1
    ensures LimitationDate(event, months) == None <==> AddMonths(event, months) == None
    ensures LimitationDate(event, months).Some? ==>
              var limit := LimitationDate(event, months).value;
              && Valid(limit)
              && Ordinal(event) + 28 * months - 1 <= Ordinal(limit) <= Ordinal(event) + 31 * months - 1
  {
    if AddMonths(event, months).Some? {
      hide Ordinal;
      AddMonthsLands(event, months);
      TargetOrdinal(event, months);
      DayBeforeIsOneLess(AddMonths(event, months).value);
      OrdinalPositive(event);
    }
  }

  lemma OrdinalPositive(d: Date)
    requires Valid(d)
    ensures Ordinal(d) >= 1
  {
    BeforeIsSmallerOrdinal(d, Date(1, 1, 1));
  }

  /** For one month both bounds are met: February of a common year, and a month of 31 days. */
  lemma BoundsAreMet()
    ensures var e := Date(2025, 2, 10);
            LimitationDate(e, 1).Some? && Ordinal(LimitationDate(e, 1).value) == Ordinal(e) + 27
    ensures var e := Date(2025, 1, 10);
            LimitationDate(e, 1).Some? && Ordinal(LimitationDate(e, 1).value) == Ordinal(e) + 30
  {
    assert AddMonths(Date(2025, 2, 10), 1) == Some(Date(2025, 3, 10));
    assert AddMonths(Date(2025, 1, 10), 1) == Some(Date(2025, 2, 10));
    assert DaysBeforeMonth(2025, 3) == DaysBeforeMonth(2025, 2) + 28;
  }

  // ---- The three-month limit ----

  lemma NextMonth(index: int)
    ensures MonthOf(index + 1) == if MonthOf(index) == 12 then 1 else MonthOf(index) + 1
    ensures Length(index) == 28 || Length(index) == 29 <==> MonthOf(index) == 2
    ensures Length(index) == 30 <==> MonthOf(index) in {4, 6, 9, 11}
  {
  }

  /** Three months on, less what clamping can take from the day. */
  lemma ThreeMonths(index: int)
    ensures var days := Length(index) + Length(index + 1) + Length(index + 2);
            && days <= 92 && 89 <= days
            && 89 <= days - (Length(index) - Length(index + 3))
  {
    hide Length;
    NextMonth(index);
    NextMonth(index + 1);
    NextMonth(index + 2);
    NextMonth(index + 3);
  }

  lemma ThreeMonthTarget(event: Date)
    requires Valid(event) && AddMonths(event, 3).Some?
    ensures Ordinal(event) + 89 <= Ordinal(AddMonths(event, 3).value) <= Ordinal(event) + 92
  {
    hide MonthStart, Length, Ordinal;
    var index := MonthIndex(event);
    AddMonthsLands(event, 3);
    IndexOfMonth(event);
    IndexOfMonth(AddMonths(event, 3).value);
    MonthsAbut(index);
    MonthsAbut(index + 1);
    MonthsAbut(index + 2);
    ThreeMonths(index);
    WithinMonth(event);
  }

  /** The limit of the unfair dismissal claim, exactly: 88 to 91 days after the event, for every date. */
  lemma ThreeMonthsLessADay(event: Date)
    requires Valid(event) && LimitationDate(event, 3).Some?
    ensures var limit := LimitationDate(event, 3).value;
            Valid(limit) && Ordinal(event) + 88 <= Ordinal(limit) <= Ordinal(event) + 91
  {
    hide Ordinal;
    DeadlineBounds(event, 3);
    AddMonthsLands(event, 3);
    ThreeMonthTarget(event);
    DayBeforeIsOneLess(AddMonths(event, 3).value);
  }

  /** Both are attained, the shorter one by clamping: 31 January gives 29 April, 1 March 31 May. */
  lemma ThreeMonthExtremes()
    ensures LimitationDate(Date(2025, 1, 31), 3) == Some(Date(2025, 4, 29))
    ensures Ordinal(Date(2025, 4, 29)) == Ordinal(Date(2025, 1, 31)) + 88
    ensures LimitationDate(Date(2025, 3, 1), 3) == Some(Date(2025, 5, 31))
    ensures Ordinal(Date(2025, 5, 31)) == Ordinal(Date(2025, 3, 1)) + 91
  {
    assert AddMonths(Date(2025, 1, 31), 3) == Some(Date(2025, 4, 30));
    assert AddMonths(Date(2025, 3, 1), 3) == Some(Date(2025, 6, 1));
    assert DaysBeforeMonth(2025, 4) == DaysBeforeMonth(2025, 3) + 31;
    assert DaysBeforeMonth(2025, 3) == DaysBeforeMonth(2025, 2) + 28;
    assert DaysBeforeMonth(2025, 5) == DaysBeforeMonth(2025, 4) + 30;
  }

  lemma TargetsAreOrdered(a: Date, b: Date, months: nat)
    requires Valid(a) && Valid(b) && !Before(b, a)
    requires AddMonths(a, months).Some? && AddMonths(b, months).Some?
    ensures !Before(AddMonths(b, months).value, AddMonths(a, months).value)
  {
    IndexOfMonth(a);
    IndexOfMonth(b);
    AddMonthsLands(a, months);
    AddMonthsLands(b, months);
    IndexOfMonth(AddMonths(a, months).value);
    IndexOfMonth(AddMonths(b, months).value);
  }

  /** An event that is not earlier never has an earlier limitation date. */
  lemma DeadlineIsMonotone(a: Date, b: Date, months: nat)
    requires Valid(a) && Valid(b) && months >= 1 && Ordinal(a) <= Ordinal(b)
    requires LimitationDate(a, months).Some? && LimitationDate(b, months).Some?
    ensures Ordinal(LimitationDate(a, months).value) <= Ordinal(LimitationDate(b, months).value)
  {
    hide Ordinal;
    var s, t := AddMonths(a, months).value, AddMonths(b, months).value;
    AddMonthsLands(a, months);
    AddMonthsLands(b, months);
    BeforeIsSmallerOrdinal(b, a);
    TargetsAreOrdered(a, b, months);
    BeforeIsSmallerOrdinal(t, s);
    DayBeforeIsOneLess(s);
    DayBeforeIsOneLess(t);
  }

  /** Two different event dates share a limitation date exactly when both are clamped to the end
      of the same shorter month. */
  lemma DeadlinesCoincideExactlyByClamping(a: Date, b: Date, months: nat)
    requires Valid(a) && Valid(b) && a != b && months >= 1
    requires AddMonths(a, months).Some? && AddMonths(b, months).Some?
    ensures LimitationDate(a, months) == LimitationDate(b, months)
            <==> a.year == b.year && a.month == b.month && a.day >= Length(MonthIndex(a) + months)
                 && b.day >= Length(MonthIndex(b) + months)
  {
    hide Ordinal;
    AddMonthsLands(a, months);
    AddMonthsLands(b, months);
    DeadlineBounds(a, months);
    DeadlineBounds(b, months);
    var s, t := AddMonths(a, months).value, AddMonths(b, months).value;
    DayBeforeIsOneLess(s);
    DayBeforeIsOneLess(t);
    BeforeIsSmallerOrdinal(s, t);
    IndexOfMonth(a);
    IndexOfMonth(b);
  }
}
