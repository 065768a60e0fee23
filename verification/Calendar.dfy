/** PostgreSQL's dates, as the recurrence backfill reads and makes them.

    A date is a month ordinal (year * 12 + month - 1) and a day of that month. */
module Calendar {
  datatype Date = Date(month: int, day: int)

  predicate Leap(year: int) {
    year % 4 == 0 && (year % 100 != 0 || year % 400 == 0)
  }

  function MonthLength(month: int): (n: int)
    ensures 28 <= n <= 31
  {
    var m := month % 12;
    if m == 1 then (if Leap(month / 12) then 29 else 28)
    else if m == 3 || m == 5 || m == 8 || m == 10 then 30
    else 31
  }

  predicate Valid(d: Date) {
    d.month >= 0 && 1 <= d.day <= MonthLength(d.month)
  }

  predicate Before(a: Date, b: Date) {
    a.month < b.month || (a.month == b.month && a.day < b.day)
  }

  /** Days from the first day of month 0 to the first day of this month. */
  function MonthStart(month: nat): nat {
    if month == 0 then 0 else MonthStart(month - 1) + MonthLength(month - 1)
  }

  /** A date as a count of days, which is what subtracting two dates compares. */
  function DayNumber(d: Date): (n: nat)
    requires Valid(d)
  {
    MonthStart(d.month) + d.day - 1
  }

  function DateAfter(month: nat, days: nat): Date
    decreases days
  {
    if days < MonthLength(month) then Date(month, days + 1)
    else DateAfter(month + 1, days - MonthLength(month))
  }

  /** The date a count of days names: date + integer is FromDayNumber(DayNumber(date) + integer). */
  function FromDayNumber(n: nat): Date {
    DateAfter(0, n)
  }

  lemma {:induction false} DateAfterCounts(month: nat, days: nat)
    ensures Valid(DateAfter(month, days)) && DayNumber(DateAfter(month, days)) == MonthStart(month) + days
    decreases days
  {
    if days < MonthLength(month) {
    } else {
      DateAfterCounts(month + 1, days - MonthLength(month));
    }
  }

  lemma {:induction false} MonthStartGrows(a: nat, b: nat)
    requires a < b
    ensures MonthStart(a) + MonthLength(a) <= MonthStart(b)
    decreases b
  {
    if a == b - 1 {
    } else {
      MonthStartGrows(a, b - 1);
    }
  }

  /** Counting days keeps the order of dates. */
  lemma DayNumberOrders(a: Date, b: Date)
    requires Valid(a) && Valid(b)
    ensures Before(a, b) <==> DayNumber(a) < DayNumber(b)
    ensures a == b <==> DayNumber(a) == DayNumber(b)
  {
    if a.month < b.month { MonthStartGrows(a.month, b.month); }
    if b.month < a.month { MonthStartGrows(b.month, a.month); }
  }

  /** Dates and day counts are the same thing, both ways. */
  lemma DaysAndDatesAgree(n: nat, d: Date)
    requires Valid(d)
    ensures Valid(FromDayNumber(n)) && DayNumber(FromDayNumber(n)) == n
    ensures FromDayNumber(DayNumber(d)) == d
  {
    DateAfterCounts(0, n);
    DateAfterCounts(0, DayNumber(d));
    DayNumberOrders(FromDayNumber(DayNumber(d)), d);
  }

  lemma MonthOfItsYear(year: nat, k: nat)
    requires k < 12
    ensures (12 * year + k) % 12 == k && (12 * year + k) / 12 == year
  {
  }

  /** The months have their lengths, February by the leap rule. */
  lemma MonthsHaveTheirLengths(year: nat, k: nat)
    requires k < 12
    ensures MonthLength(12 * year + k) == if k == 1 then 28 + LeapDaysBefore(year + 1) - LeapDaysBefore(year)
                                          else [31, 28, 31, 30, 31, 30, 31, 31, 30, 31, 30, 31][k]
  {
    MonthOfItsYear(year, k);
    ALeapDayMore(year);
  }

  /** One year in four, but for one in a hundred, but for one in four hundred, from year 0 on. */
  function LeapDaysBefore(year: int): int {
    (year + 3) / 4 - (year + 99) / 100 + (year + 399) / 400
  }

  lemma ALeapDayMore(year: nat)
    ensures LeapDaysBefore(year + 1) - LeapDaysBefore(year) == if Leap(year) then 1 else 0
  {
    OneMoreMultipleOf4(year);
    OneMoreMultipleOf100(year);
    OneMoreMultipleOf400(year);
  }

  lemma OneMoreMultipleOf4(n: nat)
    ensures (n + 4) / 4 - (n + 3) / 4 == if n % 4 == 0 then 1 else 0
  {
  }

  lemma OneMoreMultipleOf100(n: nat)
    ensures (n + 100) / 100 - (n + 99) / 100 == if n % 100 == 0 then 1 else 0
    ensures n % 100 == 0 ==> n % 4 == 0
  {
    var q, r := n / 100, n % 100;
    assert n == 100 * q + r;
    assert (n + 100) / 100 == q + 1;
    if r == 0 {
      assert (n + 99) / 100 == q;
      assert n == 4 * (25 * q);
    } else {
      assert (n + 99) / 100 == q + 1;
    }
  }

  lemma OneMoreMultipleOf400(n: nat)
    ensures (n + 400) / 400 - (n + 399) / 400 == if n % 400 == 0 then 1 else 0
    ensures n % 400 == 0 ==> n % 100 == 0
  {
    var q, r := n / 400, n % 400;
    assert n == 400 * q + r;
    assert (n + 400) / 400 == q + 1;
    if r == 0 {
      assert (n + 399) / 400 == q;
      assert n == 100 * (4 * q);
    } else {
      assert (n + 399) / 400 == q + 1;
    }
  }

  lemma AYearsDays(year: nat)
    ensures MonthStart(12 * year + 12) == MonthStart(12 * year) + 365 + LeapDaysBefore(year + 1) - LeapDaysBefore(year)
  {
    AYearOfMonths(12 * year);
    MonthsHaveTheirLengths(year, 0);
    MonthsHaveTheirLengths(year, 1);
    MonthsHaveTheirLengths(year, 2);
    MonthsHaveTheirLengths(year, 3);
    MonthsHaveTheirLengths(year, 4);
    MonthsHaveTheirLengths(year, 5);
    MonthsHaveTheirLengths(year, 6);
    MonthsHaveTheirLengths(year, 7);
    MonthsHaveTheirLengths(year, 8);
    MonthsHaveTheirLengths(year, 9);
    MonthsHaveTheirLengths(year, 10);
    MonthsHaveTheirLengths(year, 11);
  }

  /** The days before a year, by the closed form: 365 for each year and one for each leap year. */
  lemma {:induction false} YearsHaveTheirDays(year: nat)
    ensures MonthStart(12 * year) == 365 * year + LeapDaysBefore(year)
  {
    if year == 0 {
    } else {
      YearsHaveTheirDays(year - 1);
      AYearsDays(year - 1);
    }
  }

  lemma AMonthOn(month: nat)
    ensures MonthStart(month + 1) == MonthStart(month) + MonthLength(month)
  {
  }

  lemma FourMonthsOn(month: nat)
    ensures MonthStart(month + 4) == MonthStart(month) + MonthLength(month) + MonthLength(month + 1)
      + MonthLength(month + 2) + MonthLength(month + 3)
  {
    AMonthOn(month);
    AMonthOn(month + 1);
    AMonthOn(month + 2);
    AMonthOn(month + 3);
  }

  lemma AYearOfMonths(month: nat)
    ensures MonthStart(month + 12) == MonthStart(month) + MonthLength(month) + MonthLength(month + 1)
      + MonthLength(month + 2) + MonthLength(month + 3) + MonthLength(month + 4) + MonthLength(month + 5)
      + MonthLength(month + 6) + MonthLength(month + 7) + MonthLength(month + 8) + MonthLength(month + 9)
      + MonthLength(month + 10) + MonthLength(month + 11)
  {
    FourMonthsOn(month);
    FourMonthsOn(month + 4);
    FourMonthsOn(month + 8);
  }

  /** make_date(y, m, 1) + INTERVAL '1 month - 1 day'. */
  function EndOfMonth(month: nat): Date {
    FromDayNumber(DayNumber(Date(month + 1, 1)) - 1)
  }

  lemma EndOfMonthIsItsLastDay(month: nat)
    ensures EndOfMonth(month) == Date(month, MonthLength(month))
  {
    var last := Date(month, MonthLength(month));
    assert MonthStart(month + 1) == MonthStart(month) + MonthLength(month);
    assert DayNumber(last) == DayNumber(Date(month + 1, 1)) - 1;
    DaysAndDatesAgree(DayNumber(last), last);
  }
}
