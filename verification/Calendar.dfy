/**
 The proleptic Gregorian calendar the accrual code walks, on day numbers: day 0 is
 0000-01-01. A sub-period is a calendar month or a calendar year; month `i` is counted
 from 0000-01, so it lies in year `i / 12`.
 */
module Calendar {

  datatype BillingPeriod = Monthly | Yearly

  predicate IsLeapYear(y: nat) {
    y % 4 == 0 && (y % 100 != 0 || y % 400 == 0)
  }

  function DaysInMonth(m: nat): (n: nat)
    ensures 28 <= n <= 31
  {
    var month := m % 12 + 1;
    if month == 2 then (if IsLeapYear(m / 12) then 29 else 28)
    else if month == 4 || month == 6 || month == 9 || month == 11 then 30
    else 31
  }

  /** Length of the `i`-th calendar month or year. */
  function PeriodLength(p: BillingPeriod, i: nat): (n: nat)
    ensures 28 <= n <= 366
  {
    match p
    case Monthly => DaysInMonth(i)
    case Yearly => if IsLeapYear(i) then 366 else 365
  }

  /** First day of the `i`-th sub-period, which is [PeriodStart(i), PeriodStart(i + 1)). */
  function PeriodStart(p: BillingPeriod, i: nat): (d: nat) {
    if i == 0 then 0 else PeriodStart(p, i - 1) + PeriodLength(p, i - 1)
  }

  lemma {:induction false} PeriodStartIncreases(p: BillingPeriod, i: nat, j: nat)
    requires i < j
    ensures PeriodStart(p, i) + 28 * (j - i) <= PeriodStart(p, j)
    decreases j
  {
    if i + 1 < j {
      PeriodStartIncreases(p, i, j - 1);
    }
  }

  lemma PeriodStartStep(p: BillingPeriod, i: nat)
    ensures PeriodStart(p, i) + 28 <= PeriodStart(p, i + 1) <= PeriodStart(p, i) + 366
  {
  }

  /** The sub-period a day falls in, searched upwards from `i`. */
  function PeriodFrom(p: BillingPeriod, d: nat, i: nat): (r: nat)
    requires PeriodStart(p, i) <= d
    ensures i <= r && PeriodStart(p, r) <= d < PeriodStart(p, r + 1)
    decreases d - PeriodStart(p, i)
  {
    PeriodStartStep(p, i);
    if d < PeriodStart(p, i + 1) then i else PeriodFrom(p, d, i + 1)
  }

  function PeriodOf(p: BillingPeriod, d: nat): (r: nat)
    ensures PeriodStart(p, r) <= d < PeriodStart(p, r + 1)
  {
    PeriodFrom(p, d, 0)
  }

  /** Sub-periods partition the days: a day lies in exactly one of them. */
  lemma PeriodOfUnique(p: BillingPeriod, d: nat, i: nat)
    requires PeriodStart(p, i) <= d < PeriodStart(p, i + 1)
    ensures PeriodOf(p, d) == i
  {
    hide PeriodLength, PeriodStart;
    var r := PeriodOf(p, d);
    if r < i {
      PeriodStartOrdered(p, r + 1, i);
    } else if i < r {
      PeriodStartOrdered(p, i + 1, r);
    }
  }

  lemma PeriodStartOrdered(p: BillingPeriod, i: nat, j: nat)
    requires i <= j
    ensures PeriodStart(p, i) <= PeriodStart(p, j)
  {
    if i < j { PeriodStartIncreases(p, i, j); }
  }

  lemma PeriodOfMonotone(p: BillingPeriod, d: nat, e: nat)
    requires d <= e
    ensures PeriodOf(p, d) <= PeriodOf(p, e)
  {
    var r, q := PeriodOf(p, d), PeriodOf(p, e);
    if q < r {
      PeriodStartOrdered(p, q + 1, r);
    }
  }

  /** Days of a year before its `n`-th month boundary. */
  function DaysBefore(leap: bool, n: nat): nat
    requires n <= 12
  {
    if n == 0 then 0
    else DaysBefore(leap, n - 1)
         + (if n == 2 then (if leap then 29 else 28) else if n == 4 || n == 6 || n == 9 || n == 11 then 30 else 31)
  }

  lemma MonthOfYear(y: nat, k: nat)
    requires k < 12
    ensures (12 * y + k) % 12 == k && (12 * y + k) / 12 == y
  {
  }

  lemma {:induction false} MonthsAddUp(y: nat, n: nat)
    requires n <= 12
    ensures PeriodStart(Monthly, 12 * y + n) == PeriodStart(Monthly, 12 * y) + DaysBefore(IsLeapYear(y), n)
  {
    hide IsLeapYear;
    if n > 0 {
      MonthsAddUp(y, n - 1);
      MonthOfYear(y, n - 1);
      hide PeriodOf, PeriodFrom;
      assert PeriodStart(Monthly, 12 * y + n) == PeriodStart(Monthly, 12 * y + n - 1) + DaysInMonth(12 * y + n - 1);
    }
  }

  /** A year starts with its January: monthly and yearly sub-periods share their year boundaries. */
  lemma {:induction false} YearIsTwelveMonths(y: nat)
    ensures PeriodStart(Yearly, y) == PeriodStart(Monthly, 12 * y)
  {
    hide IsLeapYear;
    if y > 0 {
      YearIsTwelveMonths(y - 1);
      MonthsAddUp(y - 1, 12);
      YearDays(IsLeapYear(y - 1));
      assert 12 * (y - 1) + 12 == 12 * y;
      assert PeriodStart(Yearly, y) == PeriodStart(Yearly, y - 1) + PeriodLength(Yearly, y - 1);
    }
  }

  lemma YearDays(leap: bool)
    ensures DaysBefore(leap, 12) == if leap then 366 else 365
  {
    var d := if leap then 1 else 0;
    assert DaysBefore(leap, 1) == 31;
    assert DaysBefore(leap, 2) == 59 + d;
    assert DaysBefore(leap, 4) == 120 + d;
    assert DaysBefore(leap, 6) == 181 + d;
    assert DaysBefore(leap, 8) == 243 + d;
    assert DaysBefore(leap, 10) == 304 + d;
  }

  // ---------- the civil calendar in closed form ----------

  /** Leap days in the years 1 to `year`. */
  function LeapDaysThrough(year: int): int {
    year / 4 - year / 100 + year / 400
  }

  /** Days from the first of March to the first of the `m`-th month after it. */
  function DaysSinceMarch(m: nat): nat {
    (153 * m + 2) / 5
  }

  /** Day number of the first of a month, with years that begin in March. */
  function CivilDay(y: nat, month: nat): int
    requires 1 <= month <= 12
  {
    var year := if month <= 2 then y - 1 else y;
    60 + 365 * year + LeapDaysThrough(year) + DaysSinceMarch((month + 9) % 12)
  }

  lemma MarchTable()
    ensures DaysSinceMarch(0) == 0 && DaysSinceMarch(1) == 31 && DaysSinceMarch(2) == 61 && DaysSinceMarch(3) == 92
    ensures DaysSinceMarch(4) == 122 && DaysSinceMarch(5) == 153 && DaysSinceMarch(6) == 184 && DaysSinceMarch(7) == 214
    ensures DaysSinceMarch(8) == 245 && DaysSinceMarch(9) == 275 && DaysSinceMarch(10) == 306 && DaysSinceMarch(11) == 337
  {
  }

  /** Inside a year the closed form moves on by the lengths of the months. */
  lemma {:induction false} CivilMonths(y: nat, n: nat)
    requires n < 12
    ensures CivilDay(y, n + 1) == CivilDay(y, 1) + DaysBefore(IsLeapYear(y), n)
  {
    MarchTable();
    hide IsLeapYear, LeapDaysThrough, DaysSinceMarch;
    if n > 0 {
      CivilMonths(y, n - 1);
      if n == 2 { LeapDays(y); }
    }
  }

  /** And from year to year by its length. */
  lemma CivilYear(y: nat)
    ensures CivilDay(y + 1, 1) == CivilDay(y, 1) + (if IsLeapYear(y) then 366 else 365)
  {
    hide IsLeapYear, LeapDaysThrough, DaysSinceMarch;
    LeapDays(y);
  }

  lemma LeapDays(y: nat)
    ensures LeapDaysThrough(y) - LeapDaysThrough(y - 1) == if IsLeapYear(y) then 1 else 0
  {
    assert y / 4 - (y - 1) / 4 == if y % 4 == 0 then 1 else 0;
    assert y / 100 - (y - 1) / 100 == if y % 100 == 0 then 1 else 0;
    assert y / 400 - (y - 1) / 400 == if y % 400 == 0 then 1 else 0;
    Centuries(y);
  }

  lemma Centuries(y: nat)
    ensures (y % 100 == 0 ==> y % 4 == 0) && (y % 400 == 0 ==> y % 100 == 0)
  {
    if y % 100 == 0 { assert y == 4 * (25 * (y / 100)); }
    if y % 400 == 0 { assert y == 100 * (4 * (y / 400)); }
  }

  lemma {:induction false} CivilYears(y: nat)
    ensures PeriodStart(Monthly, 12 * y) == CivilDay(y, 1)
  {
    hide IsLeapYear, CivilDay;
    if y == 0 {
      DayZero();
    } else {
      CivilYears(y - 1);
      MonthsAddUp(y - 1, 12);
      YearDays(IsLeapYear(y - 1));
      CivilYear(y - 1);
      assert 12 * (y - 1) + 12 == 12 * y;
    }
  }

  lemma DayZero()
    ensures CivilDay(0, 1) == 0
  {
  }

  /** The walk's months are the civil ones: summing their lengths gives the closed form, for every month. */
  lemma MonthsAreCivil(y: nat, month: nat)
    requires 1 <= month <= 12
    ensures PeriodStart(Monthly, 12 * y + month - 1) == CivilDay(y, month)
  {
    hide CivilDay;
    CivilYears(y);
    CivilMonths(y, month - 1);
    MonthsAddUp(y, month - 1);
  }
}
