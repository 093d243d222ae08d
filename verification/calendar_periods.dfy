/** Calendar periods: years, half-years, quarters and months tile the calendar. */
module CalendarPeriods {
  import opened Wrappers

  datatype Date = Date(year: int, month: int, day: int)

  datatype Granularity = Year | HalfYear | Quarter | Month

  datatype PeriodKey = PeriodKey(year: int, part: int)

  const MIN_YEAR := 1
  const MAX_YEAR := 9999

  predicate Leap(year: int) { year % 4 == 0 && (year % 100 != 0 || year % 400 == 0) }

  function DaysIn(year: int, month: int): (n: int)
    ensures 28 <= n <= 31
  {
    if month == 2 then (if Leap(year) then 29 else 28)
    else if month == 4 || month == 6 || month == 9 || month == 11 then 30
    else 31
  }

  /** Long and short months alternate, from August on anew; the periods of a year are equally many months. */
  lemma MonthLengths(year: int, month: int, k: PeriodKey, g: Granularity)
    requires 1 <= month <= 12 && ValidKey(k, g)
    ensures month != 2 ==> DaysIn(year, month) == 30 + (month + month / 8) % 2
    ensures DaysIn(year, 2) == 28 + if Leap(year) then 1 else 0
    ensures (Months(k, g).1 - Months(k, g).0 + 1) * Parts(g) == 12
  {
  }

  predicate Valid(d: Date) {
    MIN_YEAR <= d.year <= MAX_YEAR && 1 <= d.month <= 12 && 1 <= d.day <= DaysIn(d.year, d.month)
  }

  /** Dates compare by year, then month, then day. */
  predicate Leq(a: Date, b: Date) {
    a.year < b.year || (a.year == b.year && (a.month < b.month || (a.month == b.month && a.day <= b.day)))
  }

  predicate KeyLeq(a: PeriodKey, b: PeriodKey) {
    a.year < b.year || (a.year == b.year && a.part <= b.part)
  }

  // ---------------------------------------------------------------- counting days

  /** The days of the months before `month`. */
  function DaysBefore(year: int, month: int): int
    requires 1 <= month <= 13
    decreases month
  {
    if month == 1 then 0 else DaysBefore(year, month - 1) + DaysIn(year, month - 1)
  }

  function DaysBeforeYear(year: int): int {
    var y := year - 1;
    365 * y + y / 4 - y / 100 + y / 400
  }

  /** Day 1 is January 1 of the year 1; a difference of ordinals is a difference in days. */
  function Ordinal(d: Date): int
    requires Valid(d)
  {
    DaysBeforeYear(d.year) + DaysBefore(d.year, d.month) + d.day
  }

  lemma YearLength(year: int)
    requires year >= 1
    ensures DaysBeforeYear(year + 1) == DaysBeforeYear(year) + DaysBefore(year, 13)
    ensures DaysBefore(year, 13) == if Leap(year) then 366 else 365
  {
    LeapCount(year);
    var months := seq(14, i requires 0 <= i < 14 => if i == 0 then 0 else DaysBefore(year, i));
    assert months[4] == DaysBefore(year, 3) + 31;
    assert months[8] == months[4] + 122;
    assert months[12] == months[8] + 122;
  }

  lemma LeapCount(year: int)
    requires year >= 1
    ensures year / 4 - (year - 1) / 4 == (if year % 4 == 0 then 1 else 0)
    ensures year / 100 - (year - 1) / 100 == (if year % 100 == 0 then 1 else 0)
    ensures year / 400 - (year - 1) / 400 == (if year % 400 == 0 then 1 else 0)
    ensures year % 400 == 0 ==> year % 100 == 0
    ensures year % 100 == 0 ==> year % 4 == 0
  {
  }

  lemma {:induction false} MonthsAscend(year: int, a: int, b: int)
    requires 1 <= a < b <= 13
    ensures DaysBefore(year, a) + DaysIn(year, a) <= DaysBefore(year, b)
    decreases b
  {
    if a < b - 1 {
      MonthsAscend(year, a, b - 1);
    }
  }

  lemma {:induction false} YearsAscend(a: int, b: int)
    requires 1 <= a < b
    ensures DaysBeforeYear(a) + DaysBefore(a, 13) <= DaysBeforeYear(b)
    decreases b
  {
    YearLength(b - 1);
    if a < b - 1 {
      YearsAscend(a, b - 1);
    }
  }

  lemma DayWithinYear(d: Date)
    requires Valid(d)
    ensures 1 <= DaysBefore(d.year, d.month) + d.day <= DaysBefore(d.year, 13)
  {
    MonthsAscend(d.year, d.month, 13);
    if d.month > 1 {
      MonthsAscend(d.year, 1, d.month);
    }
  }

  /** The order of dates is the order of their ordinals. */
  lemma OrdinalOrders(a: Date, b: Date)
    requires Valid(a) && Valid(b)
    ensures Leq(a, b) <==> Ordinal(a) <= Ordinal(b)
    ensures a == b <==> Ordinal(a) == Ordinal(b)
  {
    DayWithinYear(a);
    DayWithinYear(b);
    if a.year < b.year {
      YearsAscend(a.year, b.year);
    } else if b.year < a.year {
      YearsAscend(b.year, a.year);
    } else if a.month < b.month {
      MonthsAscend(a.year, a.month, b.month);
    } else if b.month < a.month {
      MonthsAscend(a.year, b.month, a.month);
    }
  }

  /** One day earlier; there is no day before the first of the year 1. */
  function Yesterday(d: Date): (r: Option<Date>)
    requires Valid(d)
  {
    if d.day > 1 then Some(Date(d.year, d.month, d.day - 1))
    else if d.month > 1 then Some(Date(d.year, d.month - 1, DaysIn(d.year, d.month - 1)))
    else if d.year > MIN_YEAR then Some(Date(d.year - 1, 12, 31))
    else None
  }

  lemma YesterdayIsOneLess(d: Date)
    requires Valid(d)
    ensures Yesterday(d).Some? ==> Valid(Yesterday(d).value) && Ordinal(Yesterday(d).value) == Ordinal(d) - 1
    ensures Yesterday(d).None? <==> Ordinal(d) == 1
  {
    hide Ordinal, Leap;
    FirstDay();
    OrdinalOrders(Date(1, 1, 1), d);
    if d.day > 1 {
      SameMonth(d);
    } else if d.month > 1 {
      NewMonth(d.year, d.month);
    } else if d.year > MIN_YEAR {
      NewYear(d.year);
    }
  }

  lemma SameMonth(d: Date)
    requires Valid(d) && d.day > 1
    ensures Ordinal(d) == Ordinal(Date(d.year, d.month, d.day - 1)) + 1
  {
  }

  lemma NewMonth(year: int, month: int)
    requires MIN_YEAR <= year <= MAX_YEAR && 1 < month <= 12
    ensures Ordinal(Date(year, month, 1)) == Ordinal(Date(year, month - 1, DaysIn(year, month - 1))) + 1
  {
  }

  lemma FirstDay()
    ensures Ordinal(Date(1, 1, 1)) == 1
  {
  }

  lemma NewYear(year: int)
    requires MIN_YEAR < year <= MAX_YEAR
    ensures Ordinal(Date(year, 1, 1)) == Ordinal(Date(year - 1, 12, 31)) + 1
  {
    hide Leap;
    YearLength(year - 1);
    assert DaysBefore(year - 1, 13) == DaysBefore(year - 1, 12) + DaysIn(year - 1, 12);
    assert DaysBefore(year, 1) == 0;
  }

  // ---------------------------------------------------------------- periods

  function KeyOf(d: Date, g: Granularity): PeriodKey {
    match g
    case Year => PeriodKey(d.year, 0)
    case HalfYear => PeriodKey(d.year, if d.month <= 6 then 1 else 2)
    case Quarter => PeriodKey(d.year, (d.month - 1) / 3 + 1)
    case Month => PeriodKey(d.year, d.month)
  }

  function Parts(g: Granularity): int {
    match g
    case Year => 1
    case HalfYear => 2
    case Quarter => 4
    case Month => 12
  }

  predicate ValidKey(k: PeriodKey, g: Granularity) {
    MIN_YEAR <= k.year <= MAX_YEAR && if g.Year? then k.part == 0 else 1 <= k.part <= Parts(g)
  }

  /** First and last month of a period. */
  function Months(k: PeriodKey, g: Granularity): (int, int) {
    match g
    case Year => (1, 12)
    case HalfYear => if k.part == 1 then (1, 6) else (7, 12)
    case Quarter => ((k.part - 1) * 3 + 1, (k.part - 1) * 3 + 3)
    case Month => (k.part, k.part)
  }

  /** First and last day of a period. */
  function Bounds(k: PeriodKey, g: Granularity): (b: (Date, Date))
    requires ValidKey(k, g)
    ensures Valid(b.0) && Valid(b.1) && Leq(b.0, b.1)
  {
    var (first, last) := Months(k, g);
    (Date(k.year, first, 1), Date(k.year, last, DaysIn(k.year, last)))
  }

  function NextKey(k: PeriodKey, g: Granularity): PeriodKey {
    if g.Year? then PeriodKey(k.year + 1, 0)
    else if k.part == Parts(g) then PeriodKey(k.year + 1, 1)
    else PeriodKey(k.year, k.part + 1)
  }

  /** A date belongs to the one period whose bounds enclose it. */
  lemma DateInItsPeriodOnly(d: Date, k: PeriodKey, g: Granularity)
    requires Valid(d) && ValidKey(k, g)
    ensures KeyOf(d, g) == k <==> Leq(Bounds(k, g).0, d) && Leq(d, Bounds(k, g).1)
    ensures ValidKey(KeyOf(d, g), g)
  {
  }

  /** Later dates never have earlier keys. */
  lemma KeyIsMonotone(a: Date, b: Date, g: Granularity)
    requires Valid(a) && Valid(b) && Leq(a, b)
    ensures KeyLeq(KeyOf(a, g), KeyOf(b, g))
  {
  }

  /** A period begins on the day after the one before it ends, leap years included. */
  lemma PeriodsAdjoin(k: PeriodKey, g: Granularity)
    requires ValidKey(k, g) && ValidKey(NextKey(k, g), g)
    ensures Yesterday(Bounds(NextKey(k, g), g).0) == Some(Bounds(k, g).1)
    ensures Ordinal(Bounds(NextKey(k, g), g).0) == Ordinal(Bounds(k, g).1) + 1
  {
    hide Ordinal;
    EndBeforeStart(k, g);
    YesterdayIsOneLess(Bounds(NextKey(k, g), g).0);
  }

  lemma EndBeforeStart(k: PeriodKey, g: Granularity)
    requires ValidKey(k, g) && ValidKey(NextKey(k, g), g)
    ensures Yesterday(Bounds(NextKey(k, g), g).0) == Some(Bounds(k, g).1)
  {
  }

  /** The first day of the period before that of `d`; no value where the date arithmetic of the
      program overflows. */
  function PreviousPeriodStart(d: Date, g: Granularity): Option<Date>
    requires Valid(d)
  {
    DateInItsPeriodOnly(d, KeyOf(d, g), g);
    var previousEnd := Yesterday(Bounds(KeyOf(d, g), g).0);
    if previousEnd.None? then None
    else
      YesterdayIsOneLess(Bounds(KeyOf(d, g), g).0);
      DateInItsPeriodOnly(previousEnd.value, KeyOf(previousEnd.value, g), g);
      Some(Bounds(KeyOf(previousEnd.value, g), g).0)
  }

  /** It overflows in the first period of all only; otherwise it is the start of the period whose
      successor holds `d`. */
  lemma PreviousPeriodIsTheOneBefore(d: Date, g: Granularity)
    requires Valid(d)
    ensures PreviousPeriodStart(d, g).None? <==> d.year == MIN_YEAR && KeyOf(d, g).part <= 1
    ensures PreviousPeriodStart(d, g).Some? ==>
              var start := PreviousPeriodStart(d, g).value;
              && Valid(start) && NextKey(KeyOf(start, g), g) == KeyOf(d, g)
              && start == Bounds(KeyOf(start, g), g).0 && !Leq(d, start)
  {
    hide Ordinal, DaysIn;
    DateInItsPeriodOnly(d, KeyOf(d, g), g);
    var first := Bounds(KeyOf(d, g), g).0;
    YesterdayIsOneLess(first);
    if Yesterday(first).Some? {
      var key := KeyOf(Yesterday(first).value, g);
      KeyBefore(KeyOf(d, g), key, g);
      DateInItsPeriodOnly(Bounds(key, g).0, key, g);
    }
  }

  /** The day before the first of a period lies in the period before it. */
  lemma KeyBefore(k: PeriodKey, key: PeriodKey, g: Granularity)
    requires ValidKey(k, g)
    requires Yesterday(Bounds(k, g).0).Some? && key == KeyOf(Yesterday(Bounds(k, g).0).value, g)
    ensures ValidKey(key, g) && NextKey(key, g) == k && !Leq(Bounds(k, g).0, Bounds(key, g).0)
  {
  }
}
