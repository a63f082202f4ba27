// Calendar arithmetic of the scenario engine: month steps, clamped month dates,
// reporting windows, and the real-calendar day step behind `timedelta`.

module Calendar {
  import opened Basics

  predicate IsLeap(year: int) {
    year % 4 == 0 && (year % 100 != 0 || year % 400 == 0)
  }

  /** The engine's own month-end table, which ignores leap years. */
  function LastDayOfMonth(month: int): int
    requires 1 <= month <= 12
  {
    if month == 2 then 28
    else if month == 4 || month == 6 || month == 9 || month == 11 then 30
    else 31
  }

  /** The length of a month in the real calendar. */
  function DaysInMonth(year: int, month: int): int
    requires 1 <= month <= 12
  {
    if month == 2 && IsLeap(year) then 29 else LastDayOfMonth(month)
  }

  datatype YearMonthDay = YMD(year: int, month: int, day: int) {
    predicate Valid() {
      1 <= month <= 12 && 1 <= day <= DaysInMonth(year, month)
    }
  }

  type Date = d: YearMonthDay | d.Valid() witness YMD(2000, 1, 1)

  // Dates compare field by field.
  predicate Earlier(a: Date, b: Date) {
    || a.year < b.year
    || (a.year == b.year && a.month < b.month)
    || (a.year == b.year && a.month == b.month && a.day < b.day)
  }

  function MonthIndex(d: Date): int { d.year * 12 + d.month - 1 }

  /** A number that orders dates exactly as `Earlier` does; see KeyOrdersDates. */
  function Key(d: Date): int { MonthIndex(d) * 31 + d.day - 1 }

  lemma KeyOrdersDates(a: Date, b: Date)
    ensures Earlier(a, b) <==> Key(a) < Key(b)
    ensures a == b <==> Key(a) == Key(b)
  {
  }

  // ---------------------------------------------------------------------
  // Month steps
  // ---------------------------------------------------------------------

  function AddMonths(d: Date, months: int): Date {
    var total := d.month - 1 + months;
    YMD(d.year + total / 12, total % 12 + 1, 1)
  }

  function MonthDate(start: Date, offset: int, day: int): Date
    requires day >= 1
  {
    var first := AddMonths(start, offset);
    YMD(first.year, first.month, Min(day, LastDayOfMonth(first.month)))
  }

  function OffsetOf(d: Date, start: Date): int {
    (d.year - start.year) * 12 + (d.month - start.month)
  }

  function FirstOfMonth(d: Date): Date { YMD(d.year, d.month, 1) }

  function DemoStartDate(months: int, today: Date): Date {
    AddMonths(FirstOfMonth(today), -(months - 1))
  }

  function TrailingYear(start: Date, months: int): (Date, Date) {
    var closeOffset := months - 2;
    var firstOffset := Max(closeOffset - 11, 0);
    (MonthDate(start, firstOffset, 1), MonthDate(start, closeOffset, 31))
  }

  function MonthWindows(start: Date, months: int): seq<(Date, Date)> {
    seq(Max(months - 1, 0), off => (MonthDate(start, off, 1), MonthDate(start, off, 31)))
  }

  function ScheduleOwnedFrom(months: int): int { Max(months - 2, 0) }

  lemma AddMonthsIndex(d: Date, months: int)
    ensures MonthIndex(AddMonths(d, months)) == MonthIndex(d) + months
  {
  }

  /** Month steps compose, forwards and backwards; a zero step is the first of the month. */
  lemma AddMonthsComposes(d: Date, a: int, b: int)
    ensures AddMonths(AddMonths(d, a), b) == AddMonths(d, a + b)
    ensures AddMonths(AddMonths(d, a), -a) == FirstOfMonth(d)
  {
  }

  lemma SameIndexSameMonth(a: Date, b: Date)
    requires MonthIndex(a) == MonthIndex(b)
    ensures a.year == b.year && a.month == b.month
  {
  }

  /** `_offset_of` inverts `month_date`, whatever the day. */
  lemma OffsetOfMonthDate(start: Date, k: int, day: int)
    requires day >= 1
    ensures OffsetOf(MonthDate(start, k, day), start) == k
    ensures MonthIndex(MonthDate(start, k, day)) == MonthIndex(start) + k
  {
  }

  lemma MonthDateMonotone(start: Date, i: int, day: int, j: int, day': int)
    requires day >= 1 && day' >= 1
    requires i < j || (i == j && day <= day')
    ensures Key(MonthDate(start, i, day)) <= Key(MonthDate(start, j, day'))
    ensures i < j ==> Key(MonthDate(start, i, day)) < Key(MonthDate(start, j, day'))
  {
  }

  // ---------------------------------------------------------------------
  // Reporting windows
  // ---------------------------------------------------------------------

  /** The windows are ordered and disjoint, one per month, and the last one ends
      on the annual report's period end. */
  lemma MonthWindowsOrdered(start: Date, months: int)
    ensures |MonthWindows(start, months)| == Max(months - 1, 0)
    ensures forall i :: 0 <= i < |MonthWindows(start, months)| ==>
              var w := MonthWindows(start, months)[i];
              !Earlier(w.1, w.0) && OffsetOf(w.0, start) == i == OffsetOf(w.1, start)
    ensures forall i, j :: 0 <= i < j < |MonthWindows(start, months)| ==>
              Earlier(MonthWindows(start, months)[i].1, MonthWindows(start, months)[j].0)
    ensures months >= 2 ==>
              MonthWindows(start, months)[months - 2].1 == TrailingYear(start, months).1
  {
  }

  /** Two neighbouring windows touch except over the February of a leap year,
      whose 29th falls in no window. */
  lemma WindowsTouchIff(start: Date, months: int, i: int)
    requires 0 <= i < months - 2
    ensures var end := MonthWindows(start, months)[i].1;
            NextDay(end) == MonthWindows(start, months)[i + 1].0 <==>
            !(end.month == 2 && IsLeap(end.year))
  {
  }

  /** The annual period is the last twelve of those windows together, or all of them when
      there are fewer, and the window's last month is the current one. */
  lemma TrailingYearSpans(start: Date, today: Date, months: int)
    ensures OffsetOf(today, DemoStartDate(months, today)) == months - 1 && DemoStartDate(months, today).day == 1
    ensures months >= 2 ==>
              var windows := MonthWindows(start, months);
              var n := Min(12, |windows|);
              TrailingYear(start, months) == (windows[|windows| - n].0, windows[|windows| - 1].1)
  {
  }

  /** A window is a whole month: from its first day to the last the table knows. */
  lemma WindowsAreMonths(start: Date, months: int, i: int)
    requires 0 <= i < months - 1
    ensures var w := MonthWindows(start, months)[i];
            && w.0.day == 1 && w.1.year == w.0.year && w.1.month == w.0.month
            && w.1.day == [31, 28, 31, 30, 31, 30, 31, 31, 30, 31, 30, 31][w.1.month - 1]
  {
  }

  /** The start that close_monthly_history recovers from the annual period end. */
  function RecoveredStart(annualEnd: Date, months: int): Date {
    AddMonths(FirstOfMonth(annualEnd), -(months - 2))
  }

  /** What close_monthly_history compares: the year and month of the first window it
      derives from the annual report's period end, and those of the demo start. */
  predicate DerivationsAgree(annualEnd: Date, demoStart: Date, months: int)
    requires months >= 2
  {
    var first := MonthWindows(RecoveredStart(annualEnd, months), months)[0].0;
    first.year == demoStart.year && first.month == demoStart.month
  }

  /** The "window derivations disagree" error is raised if and only if the stored annual
      period does not end in the close target's month. The trailing year does, so a
      scenario built from it never raises it. There is a window to compare exactly when
      months >= 2. */
  lemma WindowDerivationsAgree(annualEnd: Date, today: Date, months: int)
    ensures MonthWindows(RecoveredStart(annualEnd, months), months) != [] <==> months >= 2
    ensures var start := DemoStartDate(months, today);
            months >= 2 ==>
              && (DerivationsAgree(annualEnd, start, months) <==> OffsetOf(annualEnd, start) == months - 2)
              && DerivationsAgree(TrailingYear(start, months).1, start, months)
  {
    var start := DemoStartDate(months, today);
    if months >= 2 {
      RecoveredFirst(annualEnd, start, months);
      OffsetOfMonthDate(start, months - 2, 31);
      RecoveredFirst(TrailingYear(start, months).1, start, months);
    }
  }

  lemma RecoveredFirst(annualEnd: Date, start: Date, months: int)
    requires months >= 2
    ensures DerivationsAgree(annualEnd, start, months) <==> OffsetOf(annualEnd, start) == months - 2
  {
    var recovered := RecoveredStart(annualEnd, months);
    AddMonthsIndex(FirstOfMonth(annualEnd), -(months - 2));
    OffsetOfMonthDate(recovered, 0, 1);
    hide AddMonths;
    var first := MonthDate(recovered, 0, 1);
    assert MonthIndex(first) == MonthIndex(annualEnd) - (months - 2);
    if MonthIndex(first) == MonthIndex(start) {
      SameIndexSameMonth(first, start);
    }
  }

  // ---------------------------------------------------------------------
  // Day steps on the real calendar
  // ---------------------------------------------------------------------

  function NextDay(d: Date): Date {
    if d.day < DaysInMonth(d.year, d.month) then YMD(d.year, d.month, d.day + 1)
    else if d.month < 12 then YMD(d.year, d.month + 1, 1)
    else YMD(d.year + 1, 1, 1)
  }

  function PrevDay(d: Date): Date {
    if d.day > 1 then YMD(d.year, d.month, d.day - 1)
    else if d.month > 1 then YMD(d.year, d.month - 1, DaysInMonth(d.year, d.month - 1))
    else YMD(d.year - 1, 12, 31)
  }

  /** `d + timedelta(days=n)`. */
  function AddDays(d: Date, n: int): Date
    decreases if n < 0 then -n else n
  {
    if n == 0 then d
    else if n > 0 then AddDays(NextDay(d), n - 1)
    else AddDays(PrevDay(d), n + 1)
  }

  function DaysBeforeYear(year: int): int {
    var y := year - 1;
    365 * y + y / 4 - y / 100 + y / 400
  }

  function DaysBeforeMonth(year: int, month: int): int
    requires 1 <= month <= 12
  {
    if month == 1 then 0 else DaysBeforeMonth(year, month - 1) + DaysInMonth(year, month - 1)
  }

  /** The proleptic Gregorian ordinal: 1 is the first of January of year 1. */
  function Ordinal(d: Date): int {
    DaysBeforeYear(d.year) + DaysBeforeMonth(d.year, d.month) + d.day
  }

  lemma QuotientStep(y: int, n: int)
    requires n >= 1
    ensures (y + 1) / n - y / n == if (y + 1) % n == 0 then 1 else 0
  {
    var q, r := y / n, y % n;
    assert y + 1 == q * n + (r + 1);
    if r + 1 == n {
      DivModUnique(y + 1, n, q + 1, 0);
    } else {
      DivModUnique(y + 1, n, q, r + 1);
    }
  }

  lemma CenturiesAreLeapCandidates(year: int)
    ensures year % 100 == 0 ==> year % 4 == 0
    ensures year % 400 == 0 ==> year % 100 == 0
  {
  }

  lemma YearLength(year: int)
    ensures DaysBeforeYear(year + 1) - DaysBeforeYear(year) ==
            DaysBeforeMonth(year, 12) + DaysInMonth(year, 12)
  {
    MonthTable(year);
    QuotientStep(year - 1, 4);
    QuotientStep(year - 1, 100);
    QuotientStep(year - 1, 400);
    CenturiesAreLeapCandidates(year);
    hide DaysBeforeMonth;
  }

  lemma MonthTable(year: int)
    ensures DaysBeforeMonth(year, 12) == if IsLeap(year) then 335 else 334
  {
    hide IsLeap;
    var feb := if IsLeap(year) then 29 else 28;
    assert DaysBeforeMonth(year, 2) == 31;
    assert DaysBeforeMonth(year, 3) == 31 + feb;
    assert DaysBeforeMonth(year, 5) == 92 + feb;
    assert DaysBeforeMonth(year, 7) == 153 + feb;
    assert DaysBeforeMonth(year, 9) == 215 + feb;
    assert DaysBeforeMonth(year, 11) == 276 + feb;
  }

  lemma NextDayOrdinal(d: Date)
    ensures Ordinal(NextDay(d)) == Ordinal(d) + 1
    ensures Key(NextDay(d)) > Key(d)
    ensures PrevDay(NextDay(d)) == d
  {
    YearLength(d.year);
    hide IsLeap, DaysBeforeYear;
  }

  lemma PrevDayOrdinal(d: Date)
    ensures Ordinal(PrevDay(d)) == Ordinal(d) - 1
    ensures Key(PrevDay(d)) < Key(d)
    ensures NextDay(PrevDay(d)) == d
  {
    YearLength(d.year - 1);
    hide IsLeap, DaysBeforeYear;
  }

  /** `timedelta` moves the ordinal by exactly n, hence never against the calendar. */
  lemma {:induction false} AddDaysOrdinal(d: Date, n: int)
    ensures Ordinal(AddDays(d, n)) == Ordinal(d) + n
    ensures n > 0 ==> Key(AddDays(d, n)) > Key(d)
    ensures n < 0 ==> Key(AddDays(d, n)) < Key(d)
    decreases if n < 0 then -n else n
  {
    if n > 0 {
      NextDayOrdinal(d);
      AddDaysOrdinal(NextDay(d), n - 1);
    } else if n < 0 {
      PrevDayOrdinal(d);
      AddDaysOrdinal(PrevDay(d), n + 1);
    }
  }

  /** Ordinals order dates as the calendar does, so AddDays(d, n) is the one date
      whose ordinal is n away. */
  lemma {:induction false} OrdinalOrders(a: Date, b: Date)
    requires Key(a) < Key(b)
    ensures Ordinal(a) < Ordinal(b)
    decreases Key(b) - Key(a)
  {
    NextDayOrdinal(a);
    KeyOrdersDates(NextDay(a), b);
    if NextDay(a) != b {
      NextDayIsNext(a, b);
      OrdinalOrders(NextDay(a), b);
    }
  }

  lemma NextDayIsNext(a: Date, b: Date)
    requires Key(a) < Key(b)
    ensures Key(NextDay(a)) <= Key(b)
  {
    hide IsLeap;
    if MonthIndex(a) == MonthIndex(b) {
      SameIndexSameMonth(a, b);
    } else {
      assert MonthIndex(a) + 1 <= MonthIndex(b);
    }
  }
}
