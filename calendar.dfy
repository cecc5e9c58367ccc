// Calendar arithmetic behind the sales-period helpers of POS/models.py
// (`get_weekly_sales`, `get_monthly_sales`, `get_yearly_sales`): proleptic
// Gregorian dates between 0001-01-01 and 9999-12-31, day numbers counted
// from 0001-01-01 = day 1 (a Monday), day arithmetic that fails outside
// that span, `date.replace` that fails on an impossible date, and the three
// inclusive periods those helpers filter on.

module Calendar {
  import opened Wrappers

  datatype Date = Date(year: int, month: int, day: int)

  /** An inclusive span of dates, as the ORM's `date__range=[first, last]`. */
  datatype Period = Period(first: Date, last: Date)

  const MinYear := 1
  const MaxYear := 9999
  const MaxDate := Date(9999, 12, 31)

  predicate IsLeapYear(y: int) {
    y % 4 == 0 && (y % 100 != 0 || y % 400 == 0)
  }

  function DaysInMonth(y: int, m: int): int
    requires 1 <= m <= 12
  {
    if m == 2 then (if IsLeapYear(y) then 29 else 28)
    else if m == 4 || m == 6 || m == 9 || m == 11 then 30
    else 31
  }

  function DaysInYear(y: int): int {
    if IsLeapYear(y) then 366 else 365
  }

  predicate ValidDate(d: Date) {
    && MinYear <= d.year <= MaxYear
    && 1 <= d.month <= 12
    && 1 <= d.day <= DaysInMonth(d.year, d.month)
  }

  /** Calendar order, as SQL compares DATE columns. */
  predicate DateLe(a: Date, b: Date) {
    || a.year < b.year
    || (a.year == b.year && (a.month < b.month || (a.month == b.month && a.day <= b.day)))
  }

  function DaysBeforeYear(y: int): nat
    requires y >= 1
    decreases y
  {
    if y == 1 then 0 else DaysBeforeYear(y - 1) + DaysInYear(y - 1)
  }

  function DaysBeforeMonth(y: int, m: int): nat
    requires 1 <= m <= 12
    decreases m
  {
    if m == 1 then 0 else DaysBeforeMonth(y, m - 1) + DaysInMonth(y, m - 1)
  }

  /** Day number of a date; 0001-01-01 is day 1. */
  function Ordinal(d: Date): (r: int)
    requires ValidDate(d)
    ensures r >= 1
  {
    DaysBeforeYear(d.year) + DaysBeforeMonth(d.year, d.month) + d.day
  }

  /** Day of the week, Monday = 0 ... Sunday = 6. */
  function Weekday(d: Date): (w: int)
    requires ValidDate(d)
    ensures 0 <= w < 7
  {
    (Ordinal(d) + 6) % 7
  }

  // ---------------------------------------------------------------- day steps

  /** The following day; fails after 9999-12-31. */
  function NextDay(d: Date): (r: Option<Date>)
    requires ValidDate(d)
    ensures r.Some? ==> ValidDate(r.value)
  {
    if d.day < DaysInMonth(d.year, d.month) then Some(Date(d.year, d.month, d.day + 1))
    else if d.month < 12 then Some(Date(d.year, d.month + 1, 1))
    else if d.year < MaxYear then Some(Date(d.year + 1, 1, 1))
    else None
  }

  /** The previous day; fails before 0001-01-01. */
  function PrevDay(d: Date): (r: Option<Date>)
    requires ValidDate(d)
    ensures r.Some? ==> ValidDate(r.value)
  {
    if d.day > 1 then Some(Date(d.year, d.month, d.day - 1))
    else if d.month > 1 then Some(Date(d.year, d.month - 1, DaysInMonth(d.year, d.month - 1)))
    else if d.year > MinYear then Some(Date(d.year - 1, 12, 31))
    else None
  }

  /** `d + timedelta(days=n)`; None stands for Python's OverflowError. */
  function AddDays(d: Date, n: nat): (r: Option<Date>)
    requires ValidDate(d)
    ensures r.Some? ==> ValidDate(r.value)
    decreases n
  {
    if n == 0 then Some(d)
    else match NextDay(d)
      case None => None
      case Some(e) => AddDays(e, n - 1)
  }

  /** `d - timedelta(days=n)`; None stands for Python's OverflowError. */
  function SubDays(d: Date, n: nat): (r: Option<Date>)
    requires ValidDate(d)
    ensures r.Some? ==> ValidDate(r.value)
    decreases n
  {
    if n == 0 then Some(d)
    else match PrevDay(d)
      case None => None
      case Some(e) => SubDays(e, n - 1)
  }

  /** `date.replace(year=y, month=m, day=dd)`; None stands for ValueError. */
  function Replace(y: int, m: int, dd: int): (r: Option<Date>)
    ensures r.Some? <==> ValidDate(Date(y, m, dd))
    ensures r.Some? ==> r.value == Date(y, m, dd)
  {
    if MinYear <= y <= MaxYear && 1 <= m <= 12 && 1 <= dd <= DaysInMonth(y, m) then Some(Date(y, m, dd))
    else None
  }

  // ---------------------------------------------------------------- periods

  /** Monday of the week of d to six days later (POS/models.py:176-177). */
  function WeekPeriod(d: Date): (r: Option<Period>)
    requires ValidDate(d)
    ensures r.Some? ==> ValidDate(r.value.first) && ValidDate(r.value.last)
  {
    match SubDays(d, Weekday(d))
    case None => None
    case Some(start) =>
      match AddDays(start, 6)
      case None => None
      case Some(end) => Some(Period(start, end))
  }

  /** First to last day of the month of d (POS/models.py:188-193). */
  function MonthPeriod(d: Date): (r: Option<Period>)
    requires ValidDate(d)
    ensures r.Some? ==> ValidDate(r.value.first) && ValidDate(r.value.last)
  {
    match Replace(d.year, d.month, 1)
    case None => None
    case Some(start) =>
      var next := if d.month == 12 then Replace(d.year + 1, 1, 1) else Replace(d.year, d.month + 1, 1);
      match next
      case None => None
      case Some(n) =>
        match SubDays(n, 1)
        case None => None
        case Some(end) => Some(Period(start, end))
  }

  /** January 1 to December 31 of the year of d (POS/models.py:204-205). */
  function YearPeriod(d: Date): (r: Option<Period>)
    requires ValidDate(d)
    ensures r.Some? ==> ValidDate(r.value.first) && ValidDate(r.value.last)
  {
    match Replace(d.year, 1, 1)
    case None => None
    case Some(start) =>
      match Replace(d.year, 12, 31)
      case None => None
      case Some(end) => Some(Period(start, end))
  }

  predicate InPeriod(p: Period, x: Date) {
    DateLe(p.first, x) && DateLe(x, p.last)
  }

  // ---------------------------------------------------------------- day numbers

  lemma DaysBeforeDecember(y: int)
    ensures DaysBeforeMonth(y, 12) + 31 == DaysInYear(y)
  {
    assert DaysBeforeMonth(y, 1) == 0;
    assert DaysBeforeMonth(y, 2) == 31;
    assert DaysBeforeMonth(y, 3) == 31 + DaysInMonth(y, 2);
    assert DaysBeforeMonth(y, 4) == DaysBeforeMonth(y, 3) + 31;
    assert DaysBeforeMonth(y, 5) == DaysBeforeMonth(y, 4) + 30;
    assert DaysBeforeMonth(y, 6) == DaysBeforeMonth(y, 5) + 31;
    assert DaysBeforeMonth(y, 7) == DaysBeforeMonth(y, 6) + 30;
    assert DaysBeforeMonth(y, 8) == DaysBeforeMonth(y, 7) + 31;
    assert DaysBeforeMonth(y, 9) == DaysBeforeMonth(y, 8) + 31;
    assert DaysBeforeMonth(y, 10) == DaysBeforeMonth(y, 9) + 30;
    assert DaysBeforeMonth(y, 11) == DaysBeforeMonth(y, 10) + 31;
    assert DaysBeforeMonth(y, 12) == DaysBeforeMonth(y, 11) + 30;
  }

  lemma {:induction false} DaysBeforeMonthMonotone(y: int, m: int, m': int)
    requires 1 <= m <= m' <= 12
    ensures DaysBeforeMonth(y, m) + (if m < m' then DaysInMonth(y, m) else 0) <= DaysBeforeMonth(y, m')
    decreases m' - m
  {
    if m < m' - 1 {
      DaysBeforeMonthMonotone(y, m, m' - 1);
    }
  }

  lemma {:induction false} DaysBeforeYearMonotone(y: int, y': int)
    requires 1 <= y < y'
    ensures DaysBeforeYear(y) + DaysInYear(y) <= DaysBeforeYear(y')
    decreases y' - y
  {
    if y < y' - 1 {
      DaysBeforeYearMonotone(y, y' - 1);
    }
  }

  /** A date's day number never passes the end of its year. */
  lemma OrdinalWithinYear(d: Date)
    requires ValidDate(d)
    ensures DaysBeforeYear(d.year) < Ordinal(d) <= DaysBeforeYear(d.year) + DaysInYear(d.year)
  {
    DaysBeforeMonthMonotone(d.year, d.month, 12);
    DaysBeforeDecember(d.year);
  }

  /** Calendar order and day numbers agree: earlier dates have smaller numbers. */
  lemma OrdinalStrictlyMonotone(a: Date, b: Date)
    requires ValidDate(a) && ValidDate(b)
    requires DateLe(a, b) && a != b
    ensures Ordinal(a) < Ordinal(b)
  {
    if a.year < b.year {
      OrdinalWithinYear(a);
      DaysBeforeYearMonotone(a.year, b.year);
    } else if a.month < b.month {
      DaysBeforeMonthMonotone(a.year, a.month, b.month);
    }
  }

  /** Comparing day numbers is comparing dates. */
  lemma OrdinalOrder(a: Date, b: Date)
    requires ValidDate(a) && ValidDate(b)
    ensures DateLe(a, b) <==> Ordinal(a) <= Ordinal(b)
    ensures a == b <==> Ordinal(a) == Ordinal(b)
  {
    if a != b {
      if DateLe(a, b) {
        OrdinalStrictlyMonotone(a, b);
      } else {
        OrdinalStrictlyMonotone(b, a);
      }
    }
  }

  /** Every valid date lies on days 1 .. Ordinal(MaxDate). */
  lemma OrdinalRange(d: Date)
    requires ValidDate(d)
    ensures 1 <= Ordinal(d) <= Ordinal(MaxDate)
    ensures Ordinal(d) == Ordinal(MaxDate) <==> d == MaxDate
  {
    OrdinalOrder(d, MaxDate);
  }

  lemma NextDayOrdinal(d: Date)
    requires ValidDate(d)
    ensures NextDay(d).None? <==> d == MaxDate
    ensures NextDay(d).Some? ==> Ordinal(NextDay(d).value) == Ordinal(d) + 1
  {
    if d.day == DaysInMonth(d.year, d.month) && d.month == 12 && d.year < MaxYear {
      DaysBeforeDecember(d.year);
    }
  }

  lemma PrevDayOrdinal(d: Date)
    requires ValidDate(d)
    ensures PrevDay(d).None? <==> Ordinal(d) == 1
    ensures PrevDay(d).Some? ==> Ordinal(PrevDay(d).value) == Ordinal(d) - 1
  {
    if d.day > 1 {
      assert PrevDay(d) == Some(Date(d.year, d.month, d.day - 1));
    } else if d.month > 1 {
      PrevDayAcrossMonth(d);
    } else if d.year > MinYear {
      PrevDayAcrossYear(d);
    } else {
      assert d == Date(1, 1, 1);
    }
  }

  lemma PrevDayAcrossMonth(d: Date)
    requires ValidDate(d) && d.day == 1 && d.month > 1
    ensures PrevDay(d).Some? && Ordinal(PrevDay(d).value) == Ordinal(d) - 1 && Ordinal(d) > 1
  {
  }

  lemma PrevDayAcrossYear(d: Date)
    requires ValidDate(d) && d.day == 1 && d.month == 1 && d.year > MinYear
    ensures PrevDay(d).Some? && Ordinal(PrevDay(d).value) == Ordinal(d) - 1 && Ordinal(d) > 1
  {
    DaysBeforeDecember(d.year - 1);
  }

  /** Adding n days moves the day number by n, and fails exactly past 9999-12-31. */
  lemma {:induction false} AddDaysOrdinal(d: Date, n: nat)
    requires ValidDate(d)
    ensures AddDays(d, n).Some? <==> Ordinal(d) + n <= Ordinal(MaxDate)
    ensures AddDays(d, n).Some? ==> Ordinal(AddDays(d, n).value) == Ordinal(d) + n
    decreases n
  {
    OrdinalRange(d);
    if n > 0 {
      NextDayOrdinal(d);
      if NextDay(d).Some? {
        AddDaysOrdinal(NextDay(d).value, n - 1);
      }
    }
  }

  /** Subtracting n days moves the day number by n, and fails exactly before 0001-01-01. */
  lemma {:induction false} SubDaysOrdinal(d: Date, n: nat)
    requires ValidDate(d)
    ensures SubDays(d, n).Some? <==> Ordinal(d) - n >= 1
    ensures SubDays(d, n).Some? ==> Ordinal(SubDays(d, n).value) == Ordinal(d) - n
    decreases n
  {
    OrdinalRange(d);
    if n > 0 {
      PrevDayOrdinal(d);
      if PrevDay(d).Some? {
        SubDaysOrdinal(PrevDay(d).value, n - 1);
      }
    }
  }

  /** One day later, one weekday later. */
  lemma WeekdayArithmetic(o: int)
    ensures (o + 7) % 7 == ((o + 6) % 7 + 1) % 7
  {
    var q, r := (o + 6) / 7, (o + 6) % 7;
    assert o + 6 == 7 * q + r;
    if r < 6 {
      assert o + 7 == 7 * q + (r + 1);
    } else {
      assert o + 7 == 7 * (q + 1);
    }
  }

  /** 0001-01-01 is a Monday in the proleptic Gregorian calendar. */
  lemma WeekdayAnchor()
    ensures ValidDate(Date(1, 1, 1)) && Weekday(Date(1, 1, 1)) == 0
  {
  }

  /** The weekday advances by one per day, wrapping from Sunday to Monday. */
  lemma WeekdayNext(d: Date)
    requires ValidDate(d) && NextDay(d).Some?
    ensures Weekday(NextDay(d).value) == (Weekday(d) + 1) % 7
  {
    NextDayOrdinal(d);
    var o, e := Ordinal(d), NextDay(d).value;
    WeekdayArithmetic(o);
    assert Ordinal(e) + 6 == o + 7;
  }

  // ---------------------------------------------------------------- the three periods

  /** Stepping back by the weekday lands on a Monday. */
  lemma MondayArithmetic(o: int, w: int, f: int)
    requires w == (o + 6) % 7 && f == o - w
    ensures (f + 6) % 7 == 0
  {
    var q := (o + 6) / 7;
    assert o + 6 == 7 * q + w;
    assert f + 6 == 7 * q;
  }

  /** The week period's bounds as day numbers. */
  lemma WeekPeriodOrdinals(d: Date)
    requires ValidDate(d)
    ensures WeekPeriod(d).Some? <==> Ordinal(d) - Weekday(d) + 6 <= Ordinal(MaxDate)
    ensures WeekPeriod(d).Some? ==>
      var p := WeekPeriod(d).value;
      && ValidDate(p.first) && ValidDate(p.last)
      && Ordinal(p.first) == Ordinal(d) - Weekday(d)
      && Ordinal(p.last) == Ordinal(p.first) + 6
  {
    var w := Weekday(d);
    SubDaysOrdinal(d, w);
    var start := SubDays(d, w).value;
    AddDaysOrdinal(start, 6);
  }

  /** A date whose day number is o stepped back by w = o's weekday is a Monday. */
  lemma MondayAt(x: Date, o: int, w: int)
    requires ValidDate(x) && w == (o + 6) % 7 && Ordinal(x) == o - w
    ensures Weekday(x) == 0
  {
    MondayArithmetic(o, w, Ordinal(x));
  }

  /** Stepping back from d by its weekday n, when possible, reaches a Monday. */
  lemma StepBackToMonday(d: Date, n: nat)
    requires ValidDate(d) && n == Weekday(d) && SubDays(d, n).Some?
    ensures Weekday(SubDays(d, n).value) == 0
  {
    SubDaysOrdinal(d, n);
    MondayAt(SubDays(d, n).value, Ordinal(d), n);
  }

  lemma WeekStartsOnMonday(d: Date, p: Period)
    requires ValidDate(d) && WeekPeriod(d) == Some(p)
    ensures ValidDate(p.first) && Weekday(p.first) == 0
  {
    assert SubDays(d, Weekday(d)) == Some(p.first);
    StepBackToMonday(d, Weekday(d));
  }

  /** The week runs from the Monday on or before d for seven days; it
      exists unless its Sunday would lie after 9999-12-31. */
  lemma WeekPeriodSpec(d: Date)
    requires ValidDate(d)
    ensures WeekPeriod(d).Some? <==> Ordinal(d) - Weekday(d) + 6 <= Ordinal(MaxDate)
    ensures WeekPeriod(d).Some? ==>
      var p := WeekPeriod(d).value;
      && ValidDate(p.first) && ValidDate(p.last)
      && Weekday(p.first) == 0
      && Ordinal(p.first) <= Ordinal(d) <= Ordinal(p.first) + 6
      && Ordinal(p.last) == Ordinal(p.first) + 6
      && InPeriod(p, d)
      && forall x :: ValidDate(x) ==> (InPeriod(p, x) <==> Ordinal(p.first) <= Ordinal(x) <= Ordinal(p.last))
  {
    WeekPeriodOrdinals(d);
    if WeekPeriod(d).Some? {
      var p := WeekPeriod(d).value;
      WeekStartsOnMonday(d, p);
      OrdinalOrder(p.first, d);
      OrdinalOrder(d, p.last);
      forall x | ValidDate(x)
        ensures InPeriod(p, x) <==> Ordinal(p.first) <= Ordinal(x) <= Ordinal(p.last)
      {
        OrdinalOrder(p.first, x);
        OrdinalOrder(x, p.last);
      }
    }
  }

  /** The month period is day 1 to the month's last day; it only fails for
      December 9999, where the following January 1 cannot be built. */
  lemma MonthPeriodSpec(d: Date)
    requires ValidDate(d)
    ensures MonthPeriod(d).Some? <==> !(d.month == 12 && d.year == MaxYear)
    ensures MonthPeriod(d).Some? ==>
      && MonthPeriod(d).value == Period(Date(d.year, d.month, 1), Date(d.year, d.month, DaysInMonth(d.year, d.month)))
      && InPeriod(MonthPeriod(d).value, d)
      && forall x :: ValidDate(x) ==> (InPeriod(MonthPeriod(d).value, x) <==> x.year == d.year && x.month == d.month)
  {
    var next := if d.month == 12 then Replace(d.year + 1, 1, 1) else Replace(d.year, d.month + 1, 1);
    if next.Some? {
      assert SubDays(next.value, 1) == PrevDay(next.value);
    }
  }

  /** The year period is January 1 to December 31 of d's year. */
  lemma YearPeriodSpec(d: Date)
    requires ValidDate(d)
    ensures YearPeriod(d) == Some(Period(Date(d.year, 1, 1), Date(d.year, 12, 31)))
    ensures InPeriod(YearPeriod(d).value, d)
    ensures forall x :: ValidDate(x) ==> (InPeriod(YearPeriod(d).value, x) <==> x.year == d.year)
  {
  }
}
