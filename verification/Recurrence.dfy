/** The two-axis recurrence backfill (migrations/_recurrence_two_axis_backfill.py). */
module Recurrence {
  import opened Wrappers
  import opened Calendar

  datatype Pattern = EveryPeriod | EveryNPeriods | Monthly | MonthlyFirst | Quarterly | SemiAnnual | Annual | Unmodelled

  /** budget.recurrence_rules: the day and month CHECKs bound the two optional numbers. */
  datatype Rule = Rule(pattern: Pattern, dayOfMonth: Option<int>, monthOfYear: Option<int>, startDate: Option<Date>)

  /** budget.pay_periods, one row. */
  datatype Period = Period(start: Date, end: Date, index: int)

  /** An owner's periods, and the cadence its budget.pay_schedule row states, if it has one. */
  datatype Owner = Owner(periods: seq<Period>, cadence: Option<int>)

  datatype Unit = PeriodUnit | MonthUnit | YearUnit
  datatype Placement = ContainingDate | PeriodStartingOnOrAfter

  /** What the UPDATE stores on a rule it reaches. */
  datatype Stored = Stored(startsOn: Option<Date>, unit: Unit, placement: Placement, nominalDay: Option<int>)

  predicate RuleChecked(r: Rule) {
    && (r.dayOfMonth.Some? ==> 1 <= r.dayOfMonth.value <= 31)
    && (r.monthOfYear.Some? ==> 1 <= r.monthOfYear.value <= 12)
    && (r.startDate.Some? ==> Valid(r.startDate.value) && r.startDate.value.month >= 12)
  }

  /** Stored dates are in year 1 or later; a period ends no earlier than it starts. */
  predicate OwnerChecked(o: Owner) {
    && (forall p :: p in o.periods ==> Valid(p.start) && Valid(p.end) && p.start.month >= 12 && !Before(p.end, p.start))
    && (o.cadence.Some? ==> o.cadence.value > 0)
  }

  // ---------------------------------------------------------------- the calendar family

  /** PostgreSQL's %, which keeps the dividend's sign. */
  function PgRemainder(a: int, b: int): int
    requires b > 0
  {
    if a >= 0 then a % b else -(-a % b)
  }

  /** The remainder of a division toward zero: it has the dividend's sign. */
  lemma PgRemainderKeepsTheSign(a: int, b: int)
    requires b > 0
    ensures exists q :: a == q * b + PgRemainder(a, b)
    ensures -b < PgRemainder(a, b) < b && (a >= 0 ==> PgRemainder(a, b) >= 0) && (a <= 0 ==> PgRemainder(a, b) <= 0)
  {
    if a >= 0 {
      assert a == (a / b) * b + PgRemainder(a, b);
    } else {
      assert -a == (-a / b) * b + (-a) % b;
      assert a == (-(-a / b)) * b + PgRemainder(a, b);
    }
  }

  function MonthStep(p: Pattern): Option<int> {
    match p
    case Monthly => Some(1)
    case Quarterly => Some(3)
    case SemiAnnual => Some(6)
    case Annual => Some(12)
    case _ => None
  }

  function GetOr(value: Option<int>, default: int): int {
    match value case Some(v) => v case None => default
  }

  /** align_offset; `normalised` is whether "+ month_step" is in the expression. */
  function AlignOffset(effective: Date, monthOfYear: Option<int>, step: int, normalised: bool): int
    requires step > 0
  {
    PgRemainder(
      PgRemainder(GetOr(monthOfYear, 1) - 1, step) - PgRemainder(effective.month, step)
        + (if normalised then step else 0),
      step)
  }

  /** The day, clamped to the month's own last day. */
  function Clamped(month: nat, day: int): Date {
    var last := EndOfMonth(month).day;
    Date(month, if day <= last then day else last)
  }

  predicate CalendarInput(effective: Date, day: Option<int>, monthOfYear: Option<int>, step: int) {
    && Valid(effective) && effective.month >= 12
    && (day.Some? ==> 1 <= day.value <= 31)
    && (monthOfYear.Some? ==> 1 <= monthOfYear.value <= 12)
    && step in {1, 3, 6, 12}
  }

  lemma SmallRemainders(x: int, step: int)
    requires 0 <= x < step
    ensures x % step == x && (x + step) % step == x
  {
  }

  /** Without the normalising step the offset is either the same, or one whole step short. */
  lemma OffsetRange(effective: Date, day: Option<int>, monthOfYear: Option<int>, step: int)
    requires CalendarInput(effective, day, monthOfYear, step)
    ensures 0 <= AlignOffset(effective, monthOfYear, step, true) < step
    ensures var raw := AlignOffset(effective, monthOfYear, step, false);
      AlignOffset(effective, monthOfYear, step, true) == if raw < 0 then raw + step else raw
    ensures -step < AlignOffset(effective, monthOfYear, step, false)
  {
    var a := PgRemainder(GetOr(monthOfYear, 1) - 1, step);
    var b := PgRemainder(effective.month, step);
    if a >= b {
      SmallRemainders(a - b, step);
    } else {
      SmallRemainders(b - a, step);
      SmallRemainders(a - b + step, step);
    }
  }

  /** cand_first when it is not before the effective date, else cand_next. */
  function CalendarStart(effective: Date, day: Option<int>, monthOfYear: Option<int>, step: int, normalised: bool): Date
    requires CalendarInput(effective, day, monthOfYear, step)
  {
    OffsetRange(effective, day, monthOfYear, step);
    var month := effective.month + AlignOffset(effective, monthOfYear, step, normalised);
    var first := Clamped(month, GetOr(day, 1));
    if !Before(first, effective) then first else Clamped(month + step, GetOr(day, 1))
  }

  /** A date of the rule: the authored day, clamped, in a month of its cycle.  The cycle is stated
      by calendar month: as many months from the authored one as a whole number of steps. */
  predicate RuleDate(d: Date, day: Option<int>, monthOfYear: Option<int>, step: int)
    requires step > 0
  {
    && d.month >= 0
    && InCycle(d.month, monthOfYear, step)
    && var authored := if day.Some? then day.value else 1;
       d.day == if authored <= MonthLength(d.month) then authored else MonthLength(d.month)
  }

  lemma ShiftedBy3s(x: int, k: int)
    ensures (x + 3 * k) % 3 == x % 3
  {
  }

  lemma ShiftedBy6s(x: int, k: int)
    ensures (x + 6 * k) % 6 == x % 6
  {
  }

  lemma ShiftedBy12s(x: int, k: int)
    ensures (x + 12 * k) % 12 == x % 12
  {
  }

  /** Twelve is a whole number of steps. */
  lemma YearsAreWholeSteps(x: int, years: int, step: int)
    requires step in {1, 3, 6, 12}
    ensures (x + 12 * years) % step == x % step
  {
    if step == 3 {
      ShiftedBy3s(x, 4 * years);
    } else if step == 6 {
      ShiftedBy6s(x, 2 * years);
    } else if step == 12 {
      ShiftedBy12s(x, years);
    }
  }

  /** How far a month lies from the cycle, by calendar month or by ordinal: both ways agree. */
  lemma CycleIsAResidueClass(month: int, monthOfYear: int, step: int)
    requires step in {1, 3, 6, 12}
    ensures (month % 12 + 1 - monthOfYear) % step == (month - (monthOfYear - 1)) % step
  {
    var y, m := month / 12, month % 12;
    YearsAreWholeSteps(m + 1 - monthOfYear, y, step);
    assert month - (monthOfYear - 1) == m + 1 - monthOfYear + 12 * y;
  }

  predicate InCycle(month: int, monthOfYear: Option<int>, step: int)
    requires step > 0
  {
    (month % 12 + 1 - (if monthOfYear.Some? then monthOfYear.value else 1)) % step == 0
  }

  lemma MultiplesOf3(x: int, y: int)
    requires x % 3 == 0 && y % 3 == 0
    ensures (x - y) % 3 == 0 && (x - y + 3) % 3 == 0 && (x + 3) % 3 == 0 && (x < y ==> x + 3 <= y)
  {
  }

  lemma MultiplesOf6(x: int, y: int)
    requires x % 6 == 0 && y % 6 == 0
    ensures (x - y) % 6 == 0 && (x - y + 6) % 6 == 0 && (x + 6) % 6 == 0 && (x < y ==> x + 6 <= y)
  {
  }

  lemma MultiplesOf12(x: int, y: int)
    requires x % 12 == 0 && y % 12 == 0
    ensures (x - y) % 12 == 0 && (x - y + 12) % 12 == 0 && (x + 12) % 12 == 0 && (x < y ==> x + 12 <= y)
  {
  }

  lemma MultiplesOfAStep(x: int, y: int, step: int)
    requires step in {1, 3, 6, 12} && x % step == 0 && y % step == 0
    ensures (x - y) % step == 0 && (x - y + step) % step == 0 && (x + step) % step == 0
    ensures x < y ==> x + step <= y
  {
    if step == 3 {
      MultiplesOf3(x, y);
    } else if step == 6 {
      MultiplesOf6(x, y);
    } else if step == 12 {
      MultiplesOf12(x, y);
    }
  }

  lemma RemainderTakenOff(x: int, step: int)
    requires step in {1, 3, 6, 12}
    ensures (x - x % step) % step == 0
  {
    if step == 1 {
    } else if step == 3 {
      assert (x - x % 3) % 3 == 0;
    } else if step == 6 {
      assert (x - x % 6) % 6 == 0;
    } else {
      assert (x - x % 12) % 12 == 0;
    }
  }

  /** Two months of one cycle that differ, differ by a step or more. */
  lemma CycleMonthsAreAStepApart(a: int, b: int, monthOfYear: Option<int>, step: int)
    requires step in {1, 3, 6, 12} && InCycle(a, monthOfYear, step) && InCycle(b, monthOfYear, step) && a < b
    ensures a + step <= b
  {
    var from := GetOr(monthOfYear, 1) - 1;
    CycleIsAResidueClass(a, from + 1, step);
    CycleIsAResidueClass(b, from + 1, step);
    MultiplesOfAStep(a - from, b - from, step);
  }

  lemma WholeStepsFromTheCycle(month: int, monthOfYear: Option<int>, step: int)
    requires step in {1, 3, 6, 12} && (month - (GetOr(monthOfYear, 1) - 1)) % step == 0
    ensures InCycle(month, monthOfYear, step) && InCycle(month + step, monthOfYear, step)
  {
    var from := GetOr(monthOfYear, 1) - 1;
    MultiplesOfAStep(month - from, 0, step);
    CycleIsAResidueClass(month, from + 1, step);
    CycleIsAResidueClass(month + step, from + 1, step);
    assert month + step - from == month - from + step;
  }

  /** The aligned month is in the cycle, and so is the next candidate. */
  lemma AlignedIsInCycle(effective: Date, day: Option<int>, monthOfYear: Option<int>, step: int)
    requires CalendarInput(effective, day, monthOfYear, step)
    ensures var month := effective.month + AlignOffset(effective, monthOfYear, step, true);
      InCycle(month, monthOfYear, step) && InCycle(month + step, monthOfYear, step)
  {
    var from := GetOr(monthOfYear, 1) - 1;
    var month := effective.month + AlignOffset(effective, monthOfYear, step, true);
    var wholeMonths, wholeFrom := effective.month - effective.month % step, from - from % step;
    RemainderTakenOff(effective.month, step);
    RemainderTakenOff(from, step);
    MultiplesOfAStep(wholeMonths, wholeFrom, step);
    OffsetIsADifference(effective, day, monthOfYear, step);
    assert month - from == wholeMonths - wholeFrom || month - from == wholeMonths - wholeFrom + step;
    WholeStepsFromTheCycle(month, monthOfYear, step);
  }

  lemma OffsetIsADifference(effective: Date, day: Option<int>, monthOfYear: Option<int>, step: int)
    requires CalendarInput(effective, day, monthOfYear, step)
    ensures var a := (GetOr(monthOfYear, 1) - 1) % step;
      var b := effective.month % step;
      AlignOffset(effective, monthOfYear, step, true) == if a >= b then a - b else a - b + step
  {
    var a, b := (GetOr(monthOfYear, 1) - 1) % step, effective.month % step;
    if a >= b { SmallRemainders(a - b, step); } else { SmallRemainders(a - b + step, step); }
  }

  lemma ClampedIsTheRuleDate(month: nat, day: Option<int>)
    requires day.Some? ==> 1 <= day.value <= 31
    ensures Valid(Clamped(month, GetOr(day, 1)))
    ensures Clamped(month, GetOr(day, 1))
         == Date(month, if GetOr(day, 1) <= MonthLength(month) then GetOr(day, 1) else MonthLength(month))
  {
    EndOfMonthIsItsLastDay(month);
  }

  /** From the effective month on, a month of the cycle is the aligned one or a step or more past it. */
  lemma NoneBetween(other: int, month: int, from: int, monthOfYear: Option<int>, step: int)
    requires step in {1, 3, 6, 12} && from <= other && from <= month < from + step
    requires InCycle(other, monthOfYear, step) && InCycle(month, monthOfYear, step)
    ensures other == month || other >= month + step
  {
    if other < month { CycleMonthsAreAStepApart(other, month, monthOfYear, step); }
    if month < other { CycleMonthsAreAStepApart(month, other, monthOfYear, step); }
  }

  lemma ClampedIsOfTheRule(month: nat, day: Option<int>, monthOfYear: Option<int>, step: int)
    requires step > 0 && InCycle(month, monthOfYear, step) && (day.Some? ==> 1 <= day.value <= 31)
    ensures Valid(Clamped(month, GetOr(day, 1))) && RuleDate(Clamped(month, GetOr(day, 1)), day, monthOfYear, step)
  {
    ClampedIsTheRuleDate(month, day);
  }

  /** The two candidates of a month and of the one a step on: the first that is not too early. */
  function Candidate(effective: Date, month: nat, step: nat, day: int): Date {
    if !Before(Clamped(month, day), effective) then Clamped(month, day) else Clamped(month + step, day)
  }

  /** The first month from the effective one on that is in the rule's cycle. */
  function AlignedMonth(effective: Date, day: Option<int>, monthOfYear: Option<int>, step: int): (month: nat)
    requires CalendarInput(effective, day, monthOfYear, step)
    ensures effective.month <= month < effective.month + step
  {
    OffsetRange(effective, day, monthOfYear, step);
    effective.month + AlignOffset(effective, monthOfYear, step, true)
  }

  lemma CalendarStartIsACandidate(effective: Date, day: Option<int>, monthOfYear: Option<int>, step: int)
    requires CalendarInput(effective, day, monthOfYear, step)
    ensures CalendarStart(effective, day, monthOfYear, step, true)
         == Candidate(effective, AlignedMonth(effective, day, monthOfYear, step), step, GetOr(day, 1))
  {
  }

  lemma TheAlignedMonth(effective: Date, day: Option<int>, monthOfYear: Option<int>, step: int) returns (month: nat)
    requires CalendarInput(effective, day, monthOfYear, step)
    ensures effective.month <= month < effective.month + step
    ensures InCycle(month, monthOfYear, step) && InCycle(month + step, monthOfYear, step)
    ensures CalendarStart(effective, day, monthOfYear, step, true) == Candidate(effective, month, step, GetOr(day, 1))
  {
    month := AlignedMonth(effective, day, monthOfYear, step);
    AlignedIsInCycle(effective, day, monthOfYear, step);
    CalendarStartIsACandidate(effective, day, monthOfYear, step);
  }

  lemma CandidateIsOfTheRule(effective: Date, day: Option<int>, monthOfYear: Option<int>, step: nat, month: nat)
    requires Valid(effective) && effective.month <= month && step > 0 && (day.Some? ==> 1 <= day.value <= 31)
    requires InCycle(month, monthOfYear, step) && InCycle(month + step, monthOfYear, step)
    ensures var r := Candidate(effective, month, step, GetOr(day, 1));
      Valid(r) && RuleDate(r, day, monthOfYear, step) && !Before(r, effective)
  {
    ClampedIsOfTheRule(month, day, monthOfYear, step);
    ClampedIsOfTheRule(month + step, day, monthOfYear, step);
  }

  lemma CalendarStartIsOfTheRule(effective: Date, day: Option<int>, monthOfYear: Option<int>, step: int)
    requires CalendarInput(effective, day, monthOfYear, step)
    ensures var r := CalendarStart(effective, day, monthOfYear, step, true);
      Valid(r) && RuleDate(r, day, monthOfYear, step) && !Before(r, effective)
  {
    var month := TheAlignedMonth(effective, day, monthOfYear, step);
    CandidateIsOfTheRule(effective, day, monthOfYear, step, month);
  }

  /** The authored day in two months of the rule: clamped alike in the same month. */
  lemma RuleDatesOfOneMonth(d: Date, day: Option<int>, monthOfYear: Option<int>, step: int)
    requires step > 0 && RuleDate(d, day, monthOfYear, step) && (day.Some? ==> 1 <= day.value <= 31)
    ensures d == Clamped(d.month, GetOr(day, 1))
  {
    ClampedIsTheRuleDate(d.month, day);
  }

  /** Of two candidate dates the first that is not before the effective date precedes any such date
      that falls in the first's month as the first, in the next's as the next, or later. */
  lemma NoDateBeforeTheCandidate(effective: Date, first: Date, next: Date, d: Date)
    requires !Before(d, effective) && first.month < next.month
    requires d == first || d == next || d.month > next.month
    ensures !Before(d, if !Before(first, effective) then first else next)
  {
  }

  lemma NoneBeforeTheCandidate(effective: Date, step: nat, month: nat, day: int, d: Date)
    requires step > 0 && d.month >= 0 && d == Clamped(d.month, day) && !Before(d, effective)
    requires d.month == month || d.month >= month + step
    ensures !Before(d, Candidate(effective, month, step, day))
  {
    NoDateBeforeTheCandidate(effective, Clamped(month, day), Clamped(month + step, day), d);
  }

  lemma NoRuleDateBefore(effective: Date, day: Option<int>, monthOfYear: Option<int>, step: int, d: Date)
    requires CalendarInput(effective, day, monthOfYear, step)
    requires RuleDate(d, day, monthOfYear, step) && !Before(d, effective)
    ensures !Before(d, CalendarStart(effective, day, monthOfYear, step, true))
  {
    var month := TheAlignedMonth(effective, day, monthOfYear, step);
    NoneBetween(d.month, month, effective.month, monthOfYear, step);
    RuleDatesOfOneMonth(d, day, monthOfYear, step);
    NoneBeforeTheCandidate(effective, step, month, GetOr(day, 1), d);
  }

  /** The calendar arm returns the least date of the rule on or after the effective date, over
      every authored day, month and step: one look-ahead always suffices. */
  lemma CalendarArmIsLeast(effective: Date, day: Option<int>, monthOfYear: Option<int>, step: int)
    requires CalendarInput(effective, day, monthOfYear, step)
    ensures var r := CalendarStart(effective, day, monthOfYear, step, true);
      && Valid(r) && RuleDate(r, day, monthOfYear, step) && !Before(r, effective)
      && (forall d: Date :: RuleDate(d, day, monthOfYear, step) && !Before(d, effective) ==> !Before(d, r))
  {
    CalendarStartIsOfTheRule(effective, day, monthOfYear, step);
    forall d: Date | RuleDate(d, day, monthOfYear, step) && !Before(d, effective)
      ensures !Before(d, CalendarStart(effective, day, monthOfYear, step, true))
    {
      NoRuleDateBefore(effective, day, monthOfYear, step, d);
    }
  }

  /** Dropping "+ month_step" under a sign-keeping remainder never changes the chosen date. */
  lemma NormalisationChangesNothing(effective: Date, day: Option<int>, monthOfYear: Option<int>, step: int)
    requires CalendarInput(effective, day, monthOfYear, step)
    ensures CalendarStart(effective, day, monthOfYear, step, true)
         == CalendarStart(effective, day, monthOfYear, step, false)
  {
    OffsetRange(effective, day, monthOfYear, step);
  }

  // ---------------------------------------------------------------- the pay-period family

  function MaxOf(days: seq<int>): (m: int)
    requires days != []
    ensures m in days && forall d :: d in days ==> d <= m
  {
    if |days| == 1 then days[0]
    else
      assert days == [days[0]] + days[1..];
      var m := MaxOf(days[1..]);
      if days[0] >= m then days[0] else m
  }

  function MinOf(days: seq<int>): (m: int)
    requires days != []
    ensures m in days && forall d :: d in days ==> m <= d
  {
    if |days| == 1 then days[0]
    else
      assert days == [days[0]] + days[1..];
      var m := MinOf(days[1..]);
      if days[0] <= m then days[0] else m
  }

  function UpTo(days: seq<int>, limit: int): (r: seq<int>)
    ensures forall d :: d in r <==> d in days && d <= limit
  {
    if days == [] then []
    else if days[0] <= limit then [days[0]] + UpTo(days[1..], limit)
    else UpTo(days[1..], limit)
  }

  /** The payday of the span covering the effective day, on saved paydays or past the last of them. */
  function CoveringPayday(paydays: seq<int>, cadence: int, effective: int): int
    requires paydays != [] && cadence > 0 && MinOf(paydays) <= effective
  {
    var last := MaxOf(paydays);
    if effective <= last then MaxOf(UpTo(paydays, effective))
    else last + ((effective - last) / cadence) * cadence
  }

  /** The schedule extended forever at its cadence. */
  ghost predicate Payday(paydays: seq<int>, cadence: int, day: int)
    requires paydays != []
  {
    day in paydays || exists k: nat :: day == MaxOf(paydays) + k * cadence
  }

  /** Whole spans of a length: the quotient is the last one that fits. */
  lemma WholeSpans(days: int, cadence: int, k: nat)
    requires cadence > 0 && days >= 0
    ensures 0 <= k * cadence
    ensures 0 <= (days / cadence) * cadence <= days
    ensures k > days / cadence ==> k * cadence > days
    ensures k <= days / cadence ==> k * cadence <= (days / cadence) * cadence
  {
    var q := days / cadence;
    assert days == q * cadence + days % cadence;
    if k > q {
      assert k * cadence >= (q + 1) * cadence;
    }
  }

  /** Nothing is projected before the last saved payday. */
  lemma NoProjectionBeforeTheLast(paydays: seq<int>, cadence: int, d: int)
    requires paydays != [] && cadence > 0
    requires Payday(paydays, cadence, d) && d <= MaxOf(paydays)
    ensures d in paydays
  {
    var last := MaxOf(paydays);
    if k: nat :| d == last + k * cadence {
      WholeSpans(0, cadence, k);
    }
  }

  lemma SavedPaydayIsGreatest(paydays: seq<int>, cadence: int, effective: int, d: int)
    requires paydays != [] && cadence > 0 && MinOf(paydays) <= effective <= MaxOf(paydays)
    requires d in paydays && d <= effective
    ensures d <= CoveringPayday(paydays, cadence, effective)
  {
    assert MinOf(paydays) in UpTo(paydays, effective);
    assert d in UpTo(paydays, effective);
  }

  lemma ProjectedPaydayIsGreatest(paydays: seq<int>, cadence: int, effective: int, d: int)
    requires paydays != [] && cadence > 0 && MaxOf(paydays) < effective
    requires Payday(paydays, cadence, d) && d <= effective
    ensures MinOf(paydays) <= MaxOf(paydays) && d <= CoveringPayday(paydays, cadence, effective)
  {
    var last := MaxOf(paydays);
    if d in paydays {
      WholeSpans(effective - last, cadence, 0);
    } else {
      var k: nat :| d == last + k * cadence;
      WholeSpans(effective - last, cadence, k);
    }
  }

  /** The pay-period arm returns the greatest payday at or before the effective day. */
  lemma PayPeriodArmIsGreatest(paydays: seq<int>, cadence: int, effective: int)
    requires paydays != [] && cadence > 0 && MinOf(paydays) <= effective
    ensures var r := CoveringPayday(paydays, cadence, effective);
      && Payday(paydays, cadence, r) && r <= effective
      && (forall d :: Payday(paydays, cadence, d) && d <= effective ==> d <= r)
  {
    var last := MaxOf(paydays);
    var r := CoveringPayday(paydays, cadence, effective);
    if effective <= last {
      assert MinOf(paydays) in UpTo(paydays, effective);
    } else {
      WholeSpans(effective - last, cadence, 0);
      assert r == last + ((effective - last) / cadence) * cadence;
    }
    forall d | Payday(paydays, cadence, d) && d <= effective ensures d <= r {
      if effective <= last {
        NoProjectionBeforeTheLast(paydays, cadence, d);
        SavedPaydayIsGreatest(paydays, cadence, effective, d);
      } else {
        ProjectedPaydayIsGreatest(paydays, cadence, effective, d);
      }
    }
  }

  // ---------------------------------------------------------------- the first-of-month family

  /** The month's own first payday falls on or after the effective date. */
  ghost predicate Qualifies(paydays: seq<Date>, effective: Date, month: int) {
    && (exists p :: p in paydays && p.month == month)
    && (forall q :: q in paydays && q.month == month ==> !Before(q, effective))
  }

  /** The month's first payday, MIN(start_date) over the paydays of the month. */
  predicate FirstPaydayOnOrAfter(paydays: seq<Date>, effective: Date, month: int) {
    forall q :: q in paydays && q.month == month ==> !Before(q, effective)
  }

  /** ORDER BY start_date LIMIT 1 over the paydays the arm's WHERE keeps. */
  function EarliestKept(rows: seq<Date>, paydays: seq<Date>, effective: Date): (r: Option<Date>)
    ensures r.Some? ==> r.value in rows && !Before(r.value, effective)
                        && FirstPaydayOnOrAfter(paydays, effective, r.value.month)
    ensures forall p :: p in rows && !Before(p, effective) && FirstPaydayOnOrAfter(paydays, effective, p.month) ==>
      r.Some? && !Before(p, r.value)
  {
    if rows == [] then None
    else
      var rest := EarliestKept(rows[1..], paydays, effective);
      var p := rows[0];
      if Before(p, effective) || !FirstPaydayOnOrAfter(paydays, effective, p.month) then rest
      else if rest.Some? && Before(rest.value, p) then rest else Some(p)
  }

  function FirstOfMonthStart(paydays: seq<Date>, effective: Date): Date {
    match EarliestKept(paydays, paydays, effective)
    case Some(p) => Date(p.month, 1)
    case None => Date(effective.month + 1, 1)
  }

  /** The first-of-month arm returns the 1st of the earliest qualifying month, and falls back to the
      next month's 1st exactly when every payday on or after the effective date lies in the
      effective date's own month, behind an earlier payday of it. */
  lemma FirstOfMonthArmIsEarliest(paydays: seq<Date>, effective: Date)
    ensures var r := FirstOfMonthStart(paydays, effective);
      && r.day == 1
      && ((exists m :: Qualifies(paydays, effective, m)) ==>
            Qualifies(paydays, effective, r.month) && forall m :: Qualifies(paydays, effective, m) ==> r.month <= m)
      && (!(exists m :: Qualifies(paydays, effective, m)) ==> r.month == effective.month + 1)
    ensures !(exists m :: Qualifies(paydays, effective, m)) <==>
      forall p :: p in paydays && !Before(p, effective) ==>
        p.month == effective.month && exists q :: q in paydays && q.month == effective.month && Before(q, effective)
  {
    var kept := EarliestKept(paydays, paydays, effective);
    forall m | Qualifies(paydays, effective, m)
      ensures kept.Some? && kept.value.month <= m
    {
      var p :| p in paydays && p.month == m;
      assert !Before(p, effective) && FirstPaydayOnOrAfter(paydays, effective, p.month);
    }
    if kept.Some? {
      assert Qualifies(paydays, effective, kept.value.month);
    } else {
      forall p | p in paydays && !Before(p, effective)
        ensures p.month == effective.month
        ensures exists q :: q in paydays && q.month == effective.month && Before(q, effective)
      {
        assert !FirstPaydayOnOrAfter(paydays, effective, p.month);
      }
    }
  }

  // ---------------------------------------------------------------- the whole statement

  function Paydays(periods: seq<Period>): (r: seq<Date>)
    ensures |r| == |periods| && forall i :: 0 <= i < |r| ==> r[i] == periods[i].start
  {
    seq(|periods|, i requires 0 <= i < |periods| => periods[i].start)
  }

  function Days(dates: seq<Date>): (r: seq<int>)
    requires forall d :: d in dates ==> Valid(d)
    ensures |r| == |dates| && forall i :: 0 <= i < |r| ==> r[i] == DayNumber(dates[i])
  {
    seq(|dates|, i requires 0 <= i < |dates| => DayNumber(dates[i]))
  }

  function Earliest(dates: seq<Date>): (r: Date)
    requires dates != []
    ensures r in dates && forall d :: d in dates ==> !Before(d, r)
  {
    if |dates| == 1 then dates[0]
    else
      assert dates == [dates[0]] + dates[1..];
      var rest := Earliest(dates[1..]);
      if Before(rest, dates[0]) then rest else dates[0]
  }

  /** ORDER BY period_index DESC LIMIT 1. */
  function LastByIndex(periods: seq<Period>): (r: Period)
    requires periods != []
    ensures r in periods && forall p :: p in periods ==> p.index <= r.index
  {
    if |periods| == 1 then periods[0]
    else
      assert periods == [periods[0]] + periods[1..];
      var rest := LastByIndex(periods[1..]);
      if rest.index > periods[0].index then rest else periods[0]
  }

  /** COALESCE(the schedule's cadence, the last period's stored length). */
  function Cadence(o: Owner): (n: int)
    requires OwnerChecked(o) && o.periods != []
    ensures n > 0
  {
    var p := LastByIndex(o.periods);
    DayNumberOrders(p.end, p.start);
    match o.cadence case Some(n) => n case None => DayNumber(p.end) - DayNumber(p.start) + 1
  }

  /** GREATEST(opening, start_date), which ignores a NULL. */
  function Effective(r: Rule, o: Owner): (e: Date)
    requires RuleChecked(r) && OwnerChecked(o) && o.periods != []
    ensures Valid(e) && e.month >= 12 && !Before(e, Earliest(Paydays(o.periods)))
  {
    var opening := Earliest(Paydays(o.periods));
    if r.startDate.Some? && Before(opening, r.startDate.value) then r.startDate.value else opening
  }

  /** Counting days, the opening payday is still the least. */
  lemma OpeningIsLeast(dates: seq<Date>, e: Date)
    requires dates != [] && Valid(e) && !Before(e, Earliest(dates))
    requires forall d :: d in dates ==> Valid(d)
    ensures MinOf(Days(dates)) <= DayNumber(e)
  {
    var i :| 0 <= i < |dates| && dates[i] == Earliest(dates);
    assert Days(dates)[i] in Days(dates);
    DayNumberOrders(e, Earliest(dates));
  }

  function PayPeriodStart(dates: seq<Date>, cadence: int, e: Date): (r: Date)
    requires dates != [] && cadence > 0 && Valid(e) && !Before(e, Earliest(dates))
    requires forall d :: d in dates ==> Valid(d)
    ensures Valid(r) && MinOf(Days(dates)) <= DayNumber(e)
    ensures DayNumber(r) == CoveringPayday(Days(dates), cadence, DayNumber(e))
  {
    OpeningIsLeast(dates, e);
    PayPeriodArmIsGreatest(Days(dates), cadence, DayNumber(e));
    CoveringIsNotNegative(Days(dates), cadence, DayNumber(e));
    DaysAndDatesAgree(CoveringPayday(Days(dates), cadence, DayNumber(e)), e);
    FromDayNumber(CoveringPayday(Days(dates), cadence, DayNumber(e)))
  }

  lemma CoveringIsNotNegative(paydays: seq<int>, cadence: int, effective: int)
    requires paydays != [] && cadence > 0 && MinOf(paydays) <= effective
    requires forall d :: d in paydays ==> d >= 0
    ensures CoveringPayday(paydays, cadence, effective) >= 0
  {
    PayPeriodArmIsGreatest(paydays, cadence, effective);
    assert Payday(paydays, cadence, MinOf(paydays));
  }

  /** Refused before the statement runs: an unmodelled pattern, or an owner with no pay periods. */
  predicate Refused(r: Rule, o: Owner) {
    o.periods == [] || r.pattern.Unmodelled?
  }

  /** Only where the anchor month clamped the authored day. */
  function NominalDay(r: Rule, startsOn: Option<Date>): Option<int> {
    if MonthStep(r.pattern).Some? && startsOn.Some? && r.dayOfMonth.Some? && r.dayOfMonth.value > startsOn.value.day
    then r.dayOfMonth else None
  }

  function StartsOn(r: Rule, o: Owner): Option<Date>
    requires RuleChecked(r) && OwnerChecked(o) && o.periods != []
  {
    var e := Effective(r, o);
    match r.pattern
    case EveryPeriod => Some(PayPeriodStart(Paydays(o.periods), Cadence(o), e))
    case EveryNPeriods => Some(PayPeriodStart(Paydays(o.periods), Cadence(o), e))
    case MonthlyFirst => Some(FirstOfMonthStart(Paydays(o.periods), e))
    case Unmodelled => None
    case _ => Some(CalendarStart(e, r.dayOfMonth, r.monthOfYear, MonthStep(r.pattern).value, true))
  }

  /** What the UPDATE leaves on a rule; None when the inner join on the schedule leaves it out. */
  function Backfill(r: Rule, o: Owner): Option<Stored>
    requires RuleChecked(r) && OwnerChecked(o)
  {
    if o.periods == [] then None
    else
      Some(Stored(
        StartsOn(r, o),
        if r.pattern.Annual? then YearUnit
        else if r.pattern.EveryPeriod? || r.pattern.EveryNPeriods? then PeriodUnit else MonthUnit,
        if r.pattern.MonthlyFirst? then PeriodStartingOnOrAfter else ContainingDate,
        NominalDay(r, StartsOn(r, o))))
  }

  /** The input refusal and the statement agree: a rule is filled exactly when it was not refused,
      and the two refused states fail differently, one left out and one left NULL. */
  lemma FilledExactlyWhenNotRefused(r: Rule, o: Owner)
    requires RuleChecked(r) && OwnerChecked(o)
    ensures (Backfill(r, o).Some? && Backfill(r, o).value.startsOn.Some?) <==> !Refused(r, o)
    ensures Backfill(r, o).None? <==> o.periods == []
  {
  }

  /** The day a reader of the stored pair takes the rule to mean. */
  function Meant(startsOn: Date, nominalDay: Option<int>): int {
    match nominalDay case Some(d) => d case None => startsOn.day
  }

  /** ck_recurrence_rules_nominal_day. */
  predicate NominalChecked(startsOn: Date, nominalDay: Option<int>)
    requires startsOn.month >= 0
  {
    nominalDay.Some? ==>
      && 29 <= nominalDay.value <= 31
      && nominalDay.value > startsOn.day
      && startsOn == Clamped(startsOn.month, nominalDay.value)
  }

  /** The pay-period arm by dates: the greatest payday not after the effective date. */
  lemma PayPeriodStartIsGreatest(dates: seq<Date>, cadence: int, e: Date)
    requires dates != [] && cadence > 0 && Valid(e) && !Before(e, Earliest(dates))
    requires forall d :: d in dates ==> Valid(d)
    ensures var s := PayPeriodStart(dates, cadence, e);
      && !Before(e, s) && Payday(Days(dates), cadence, DayNumber(s))
      && (forall d: Date :: Valid(d) && Payday(Days(dates), cadence, DayNumber(d)) && !Before(e, d) ==> !Before(s, d))
  {
    var s := PayPeriodStart(dates, cadence, e);
    PayPeriodArmIsGreatest(Days(dates), cadence, DayNumber(e));
    DayNumberOrders(e, s);
    forall d: Date | Valid(d) && Payday(Days(dates), cadence, DayNumber(d)) && !Before(e, d) ensures !Before(s, d) {
      DayNumberOrders(e, d);
      DayNumberOrders(s, d);
    }
  }

  /** The date a rule takes effect: the owner's first payday or the rule's own start date, whichever
      is later. */
  ghost predicate TakesEffect(r: Rule, o: Owner, e: Date) {
    && (exists p :: p in o.periods && !Before(e, p.start))
    && (r.startDate.Some? ==> !Before(e, r.startDate.value))
    && (r.startDate == Some(e)
        || ((exists p :: p in o.periods && p.start == e) && (forall p :: p in o.periods ==> !Before(p.start, e))))
  }

  /** A cadence for the owner: the schedule's, or without one the length of a last period. */
  ghost predicate CadenceDays(o: Owner, n: int) {
    match o.cadence
    case Some(days) => n == days
    case None =>
      exists p :: p in o.periods && Valid(p.start) && Valid(p.end) && n == DayNumber(p.end) - DayNumber(p.start) + 1
                  && forall q :: q in o.periods ==> q.index <= p.index
  }

  lemma EffectiveIsWhenItTakesEffect(r: Rule, o: Owner)
    requires RuleChecked(r) && OwnerChecked(o) && o.periods != []
    ensures forall e :: TakesEffect(r, o, e) <==> e == Effective(r, o)
  {
    var opening := Earliest(Paydays(o.periods));
    var i :| 0 <= i < |o.periods| && Paydays(o.periods)[i] == opening;
    assert o.periods[i] in o.periods && o.periods[i].start == opening;
    forall p | p in o.periods ensures !Before(p.start, opening) {
      var k :| 0 <= k < |o.periods| && o.periods[k] == p;
      assert Paydays(o.periods)[k] in Paydays(o.periods);
    }
  }

  lemma CadenceIsTheOwners(o: Owner)
    requires OwnerChecked(o) && o.periods != []
    ensures CadenceDays(o, Cadence(o))
  {
    var p := LastByIndex(o.periods);
  }

  /** The months in a step of the four calendar patterns. */
  ghost predicate StepsBy(p: Pattern, months: int) {
    || (p == Monthly && months == 1)
    || (p == Quarterly && months == 3)
    || (p == SemiAnnual && months == 6)
    || (p == Annual && months == 12)
  }

  /** What the backfill stores for a calendar pattern: the first date of the rule, its authored day
      clamped in a month of its 1-, 3-, 6- or 12-month cycle, on or after the later of the owner's
      first payday and the rule's start date. */
  lemma BackfillMeansTheRulesFirstDate(r: Rule, o: Owner, e: Date, step: int)
    requires RuleChecked(r) && OwnerChecked(o) && o.periods != []
    requires TakesEffect(r, o, e) && StepsBy(r.pattern, step)
    ensures Backfill(r, o).Some? && Backfill(r, o).value.startsOn.Some?
    ensures var s := Backfill(r, o).value.startsOn.value;
      && RuleDate(s, r.dayOfMonth, r.monthOfYear, step) && !Before(s, e)
      && (forall d: Date :: RuleDate(d, r.dayOfMonth, r.monthOfYear, step) && !Before(d, e) ==> !Before(d, s))
  {
    EffectiveIsWhenItTakesEffect(r, o);
    CalendarArmIsLeast(Effective(r, o), r.dayOfMonth, r.monthOfYear, step);
  }

  /** And for a pay-period pattern: the payday of the span that date falls in, in the schedule
      extended forever at the owner's cadence. */
  lemma BackfillMeansTheCoveringPayday(r: Rule, o: Owner, e: Date)
    requires RuleChecked(r) && OwnerChecked(o) && o.periods != []
    requires TakesEffect(r, o, e) && (r.pattern == EveryPeriod || r.pattern == EveryNPeriods)
    ensures Backfill(r, o).Some? && Backfill(r, o).value.startsOn.Some?
    ensures var s, days := Backfill(r, o).value.startsOn.value, Days(Paydays(o.periods));
      exists n ::
        && n > 0 && CadenceDays(o, n) && Valid(s) && !Before(e, s) && Payday(days, n, DayNumber(s))
        && (forall d: Date :: Valid(d) && Payday(days, n, DayNumber(d)) && !Before(e, d) ==> !Before(s, d))
  {
    EffectiveIsWhenItTakesEffect(r, o);
    CadenceIsTheOwners(o);
    PayPeriodStartIsGreatest(Paydays(o.periods), Cadence(o), Effective(r, o));
    assert Cadence(o) > 0 && CadenceDays(o, Cadence(o));
  }

  /** And for the first-of-month pattern: the 1st of the earliest month whose first payday is not
      before that date, or of the month after it when there is none. */
  lemma BackfillMeansTheFirstOfAMonth(r: Rule, o: Owner, e: Date)
    requires RuleChecked(r) && OwnerChecked(o) && o.periods != []
    requires TakesEffect(r, o, e) && r.pattern == MonthlyFirst
    ensures Backfill(r, o).Some? && Backfill(r, o).value.startsOn.Some?
    ensures var s, paydays := Backfill(r, o).value.startsOn.value, Paydays(o.periods);
      && s.day == 1
      && (forall m :: Qualifies(paydays, e, m) ==> Qualifies(paydays, e, s.month) && s.month <= m)
      && ((forall m :: !Qualifies(paydays, e, m)) ==> s.month == e.month + 1)
  {
    EffectiveIsWhenItTakesEffect(r, o);
    FirstOfMonthArmIsEarliest(Paydays(o.periods), Effective(r, o));
  }

  /** The unit and the placement of each of the seven patterns, and no nominal day but a calendar
      pattern's. */
  lemma BackfillReadsThePattern(r: Rule, o: Owner)
    requires RuleChecked(r) && OwnerChecked(o) && o.periods != []
    ensures var s := Backfill(r, o).value;
      && (r.pattern in {EveryPeriod, EveryNPeriods} ==> s.unit == PeriodUnit && s.placement == ContainingDate)
      && (r.pattern in {Monthly, Quarterly, SemiAnnual} ==> s.unit == MonthUnit && s.placement == ContainingDate)
      && (r.pattern == MonthlyFirst ==> s.unit == MonthUnit && s.placement == PeriodStartingOnOrAfter)
      && (r.pattern == Annual ==> s.unit == YearUnit && s.placement == ContainingDate)
      && (r.pattern !in {Monthly, Quarterly, SemiAnnual, Annual} ==> s.nominalDay == None)
      && (s.nominalDay.Some? ==> s.nominalDay == r.dayOfMonth)
  {
  }

  /** Storing a nominal day only where the anchor month clamped it loses nothing: the pair means the
      authored day, every later month clamps it to the same date, and the column's CHECK holds. */
  lemma NominalDayLosesNothing(r: Rule, o: Owner)
    requires RuleChecked(r) && OwnerChecked(o) && !Refused(r, o) && MonthStep(r.pattern).Some?
    ensures var s := Backfill(r, o).value;
      && (if s.nominalDay.Some? then s.nominalDay.value else s.startsOn.value.day)
         == (if r.dayOfMonth.Some? then r.dayOfMonth.value else 1)
      && s.startsOn.value.month >= 0 && NominalChecked(s.startsOn.value, s.nominalDay)
  {
    CalendarArmIsLeast(Effective(r, o), r.dayOfMonth, r.monthOfYear, MonthStep(r.pattern).value);
    EndOfMonthIsItsLastDay(Backfill(r, o).value.startsOn.value.month);
  }

  /** Any pair the CHECK admits names its own first date again when it is read back. */
  lemma StoredPairNamesItsDate(startsOn: Date, nominalDay: Option<int>)
    requires Valid(startsOn) && NominalChecked(startsOn, nominalDay)
    ensures Clamped(startsOn.month, Meant(startsOn, nominalDay)) == startsOn
  {
    EndOfMonthIsItsLastDay(startsOn.month);
  }

  /** A monthly rule whose nominal day was dropped would decay: some later month moves. */
  lemma WithoutTheNominalDayARuleDecays(r: Rule, o: Owner)
    requires RuleChecked(r) && OwnerChecked(o) && !Refused(r, o) && r.pattern.Monthly?
    requires Backfill(r, o).value.nominalDay.Some?
    ensures var s := Backfill(r, o).value;
      exists m: nat :: m > s.startsOn.value.month
                       && Clamped(m, s.startsOn.value.day) != Clamped(m, GetOr(r.dayOfMonth, 1))
  {
    CalendarArmIsLeast(Effective(r, o), r.dayOfMonth, r.monthOfYear, 1);
    var s := Backfill(r, o).value.startsOn.value;
    var january := (s.month / 12 + 1) * 12;
    NextJanuary(s.month);
    JanuaryClampsNothing(january, s.day);
    JanuaryClampsNothing(january, r.dayOfMonth.value);
  }

  lemma NextJanuary(month: nat)
    ensures var january := (month / 12 + 1) * 12; january > month && january % 12 == 0
  {
  }

  lemma JanuaryClampsNothing(month: nat, day: int)
    requires month % 12 == 0 && day <= 31
    ensures Clamped(month, day) == Date(month, day)
  {
    EndOfMonthIsItsLastDay(month);
  }
}
