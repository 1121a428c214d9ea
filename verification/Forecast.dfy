/**
 The monthly forecast: cumulative cost from the start of the year, differenced at month ends,
 so that rounding never loses or invents a cent.
 */
module Forecast {
  import opened Calendar
  import opened PeriodKeys
  import opened Accrual

  /** A one-off amount on a day; a credit is negative. */
  datatype OneOff = OneOff(on: nat, amount: int)

  function PeriodsCents(periods: seq<Terms>, from: nat, to: nat): int {
    if periods == [] then 0
    else PeriodsCents(periods[..|periods| - 1], from, to) + CostInRange(periods[|periods| - 1], from, to)
  }

  function ChargesCents(charges: seq<OneOff>, from: nat, to: nat): int {
    if charges == [] then 0
    else
      var c := charges[|charges| - 1];
      ChargesCents(charges[..|charges| - 1], from, to) + (if from <= c.on < to then c.amount else 0)
  }

  /** Everything that falls on the days [from, to). */
  function RangeCents(periods: seq<Terms>, charges: seq<OneOff>, from: nat, to: nat): int {
    if to <= from then 0 else PeriodsCents(periods, from, to) + ChargesCents(charges, from, to)
  }

  method ForecastRangeCents(periods: seq<Terms>, charges: seq<OneOff>, from: nat, to: nat) returns (total: int)
    ensures total == RangeCents(periods, charges, from, to)
  {
    hide CostInRange;
    total := 0;
    if to <= from { return; }
    for k := 0 to |periods|
      invariant total == PeriodsCents(periods[..k], from, to)
    {
      assert periods[..k + 1][..k] == periods[..k];
      var cents := ComputeCostInRange(periods[k], from, to);
      total := total + cents;
    }
    assert periods[..|periods|] == periods;
    ghost var rent := total;
    for k := 0 to |charges|
      invariant total == rent + ChargesCents(charges[..k], from, to)
    {
      assert charges[..k + 1][..k] == charges[..k];
      if from <= charges[k].on < to { total := total + charges[k].amount; }
    }
    assert charges[..|charges|] == charges;
  }

  /** The `m`-th month boundary of a year; boundary 0 is New Year's Day, boundary 12 the next one. */
  function Boundary(year: nat, m: nat): nat {
    PeriodStart(Monthly, 12 * year + m)
  }

  /** A boundary moved into the forecast's range. */
  function Clip(d: nat, from: nat, to: nat): nat {
    if d <= from then from else if d < to then d else to
  }

  /** What accrued from the start of the year to day `d`. */
  function Cumulative(periods: seq<Terms>, charges: seq<OneOff>, year: nat, d: nat): int {
    RangeCents(periods, charges, Boundary(year, 0), d)
  }

  /** The part of the range [from, to) that lies in the year; empty when nothing is left. */
  function FirstDay(year: nat, from: nat): nat {
    if from < Boundary(year, 0) then Boundary(year, 0) else from
  }

  function LastDay(year: nat, to: nat): nat {
    if to > Boundary(year, 12) then Boundary(year, 12) else to
  }

  function Month(periods: seq<Terms>, charges: seq<OneOff>, year: nat, from: nat, to: nat, m: nat): int {
    var f, t := FirstDay(year, from), LastDay(year, to);
    if t <= f then 0
    else
      Cumulative(periods, charges, year, Clip(Boundary(year, m + 1), f, t))
      - Cumulative(periods, charges, year, Clip(Boundary(year, m), f, t))
  }

  /** The loop over the months, with one running cumulative. */
  method ForecastMonths(periods: seq<Terms>, charges: seq<OneOff>, year: nat, from: nat, to: nat) returns (months: seq<int>)
    ensures |months| == 12
    ensures forall m :: 0 <= m < 12 ==> months[m] == Month(periods, charges, year, from, to, m)
  {
    hide RangeCents, Boundary;
    months := seq(12, _ => 0);
    var f, t := FirstDay(year, from), LastDay(year, to);
    if t <= f { return; }
    BoundariesAscend(year, 0, 12);
    var previous := ForecastRangeCents(periods, charges, Boundary(year, 0), f);
    var m := 0;
    while m < 12
      invariant m <= 12 && |months| == 12
      invariant previous == Cumulative(periods, charges, year, Clip(Boundary(year, m), f, t))
      invariant forall k :: 0 <= k < m ==> months[k] == Month(periods, charges, year, from, to, k)
      invariant forall k :: m <= k < 12 ==> months[k] == 0
    {
      BoundariesAscend(year, m, m + 1);
      var end := Boundary(year, m + 1);
      if end <= f {
        m := m + 1;
        continue;
      }
      if end > t { end := t; }
      var current := ForecastRangeCents(periods, charges, Boundary(year, 0), end);
      months := months[m := current - previous];
      previous := current;
      m := m + 1;
      if end >= t {
        forall k | m <= k < 12 ensures Month(periods, charges, year, from, to, k) == 0 {
          BoundariesAscend(year, m, k);
          BoundariesAscend(year, k, k + 1);
        }
        return;
      }
    }
  }

  lemma BoundariesAscend(year: nat, m: nat, k: nat)
    requires m <= k
    ensures Boundary(year, m) <= Boundary(year, k)
  {
    PeriodStartOrdered(Monthly, 12 * year + m, 12 * year + k);
  }

  // ---------- telescoping ----------

  function SumMonths(periods: seq<Terms>, charges: seq<OneOff>, year: nat, from: nat, to: nat, n: nat): int {
    if n == 0 then 0
    else SumMonths(periods, charges, year, from, to, n - 1) + Month(periods, charges, year, from, to, n - 1)
  }

  lemma {:induction false} MonthsTelescopeTo(periods: seq<Terms>, charges: seq<OneOff>, year: nat, from: nat, to: nat, n: nat)
    requires FirstDay(year, from) < LastDay(year, to)
    ensures var f, t := FirstDay(year, from), LastDay(year, to);
      SumMonths(periods, charges, year, from, to, n)
         == Cumulative(periods, charges, year, Clip(Boundary(year, n), f, t)) - Cumulative(periods, charges, year, f)
  {
    hide Cumulative, Boundary;
    if n > 0 {
      MonthsTelescopeTo(periods, charges, year, from, to, n - 1);
    } else {
      FirstDayAfterNewYear(year, from);
    }
  }

  lemma FirstDayAfterNewYear(year: nat, from: nat)
    ensures Boundary(year, 0) <= FirstDay(year, from)
  {
    hide Boundary;
  }

  /** The year's months add up to exactly what accrued over the range, to the cent. */
  lemma MonthsTelescope(periods: seq<Terms>, charges: seq<OneOff>, year: nat, from: nat, to: nat)
    ensures var f, t := FirstDay(year, from), LastDay(year, to);
      SumMonths(periods, charges, year, from, to, 12)
         == if t <= f then 0 else Cumulative(periods, charges, year, t) - Cumulative(periods, charges, year, f)
  {
    hide Cumulative, Boundary;
    if FirstDay(year, from) < LastDay(year, to) {
      MonthsTelescopeTo(periods, charges, year, from, to, 12);
    } else {
      NothingToForecast(periods, charges, year, from, to, 12);
    }
  }

  lemma {:induction false} NothingToForecast(periods: seq<Terms>, charges: seq<OneOff>, year: nat, from: nat, to: nat, n: nat)
    requires LastDay(year, to) <= FirstDay(year, from)
    ensures SumMonths(periods, charges, year, from, to, n) == 0
  {
    hide Cumulative, Boundary;
    if n > 0 { NothingToForecast(periods, charges, year, from, to, n - 1); }
  }

  /** Splitting a range at any cutoff day loses and invents nothing. */
  lemma CutoffLosesNothing(periods: seq<Terms>, charges: seq<OneOff>, year: nat, from: nat, cutoff: nat, to: nat)
    requires FirstDay(year, from) <= cutoff <= LastDay(year, to)
    ensures SumMonths(periods, charges, year, from, cutoff, 12) + SumMonths(periods, charges, year, cutoff, to, 12)
         == SumMonths(periods, charges, year, from, to, 12)
  {
    hide Cumulative, Boundary;
    FirstDayAfterNewYear(year, from);
    MonthsTelescope(periods, charges, year, from, cutoff);
    MonthsTelescope(periods, charges, year, cutoff, to);
    MonthsTelescope(periods, charges, year, from, to);
  }

  // ---------- no negative month ----------

  predicate NoCredits(charges: seq<OneOff>) {
    forall k :: 0 <= k < |charges| ==> charges[k].amount >= 0
  }

  lemma {:induction false} PeriodsMonotone(periods: seq<Terms>, s: nat, d: nat, e: nat)
    requires d <= e
    ensures 0 <= PeriodsCents(periods, s, d) <= PeriodsCents(periods, s, e)
  {
    hide CostInRange;
    if periods != [] {
      PeriodsMonotone(periods[..|periods| - 1], s, d, e);
      CostMonotone(periods[|periods| - 1], s, d, e);
    }
  }

  lemma {:induction false} ChargesMonotone(charges: seq<OneOff>, s: nat, d: nat, e: nat)
    requires d <= e && NoCredits(charges)
    ensures 0 <= ChargesCents(charges, s, d) <= ChargesCents(charges, s, e)
  {
    if charges != [] {
      ChargesMonotone(charges[..|charges| - 1], s, d, e);
    }
  }

  /** If no source is negative, no month is. */
  lemma MonthsAreNonnegative(periods: seq<Terms>, charges: seq<OneOff>, year: nat, from: nat, to: nat, m: nat)
    requires NoCredits(charges)
    ensures Month(periods, charges, year, from, to, m) >= 0
  {
    hide Boundary, PeriodsCents, ChargesCents;
    var f, t, s := FirstDay(year, from), LastDay(year, to), Boundary(year, 0);
    BoundariesAscend(year, m, m + 1);
    if f < t {
      var d, e := Clip(Boundary(year, m), f, t), Clip(Boundary(year, m + 1), f, t);
      PeriodsMonotone(periods, s, d, e);
      ChargesMonotone(charges, s, d, e);
    }
  }

  // ---------- what each source adds ----------

  lemma {:induction false} ChargesAppend(charges: seq<OneOff>, c: OneOff, from: nat, to: nat)
    ensures ChargesCents(charges + [c], from, to) == ChargesCents(charges, from, to) + (if from <= c.on < to then c.amount else 0)
  {
    assert (charges + [c])[..|charges|] == charges;
  }

  /**
   One more one-off adds its amount to exactly the month its day lies in, if that day is in the range
   forecast, and nothing to any other.
   */
  lemma OneOffCountsInItsMonth(periods: seq<Terms>, charges: seq<OneOff>, c: OneOff, year: nat, from: nat, to: nat, m: nat)
    requires m < 12
    ensures Month(periods, charges + [c], year, from, to, m) == Month(periods, charges, year, from, to, m)
      + (if FirstDay(year, from) <= c.on < LastDay(year, to) && Boundary(year, m) <= c.on < Boundary(year, m + 1) then c.amount else 0)
  {
    hide Boundary, PeriodsCents, ChargesCents;
    var f, t, s := FirstDay(year, from), LastDay(year, to), Boundary(year, 0);
    BoundariesAscend(year, 0, m);
    BoundariesAscend(year, m, m + 1);
    FirstDayAfterNewYear(year, from);
    if f < t {
      var d, e := Clip(Boundary(year, m), f, t), Clip(Boundary(year, m + 1), f, t);
      ChargesAppend(charges, c, s, d);
      ChargesAppend(charges, c, s, e);
    }
  }

  /** One more periodic source adds what it accrues from New Year to the end of the month, less what to its beginning. */
  lemma SourceAddsItsAccrual(periods: seq<Terms>, a: Terms, charges: seq<OneOff>, year: nat, from: nat, to: nat, m: nat)
    requires m < 12
    ensures var f, t, s := FirstDay(year, from), LastDay(year, to), Boundary(year, 0);
      var d, e := Clip(Boundary(year, m), f, t), Clip(Boundary(year, m + 1), f, t);
      Month(periods + [a], charges, year, from, to, m) == Month(periods, charges, year, from, to, m)
        + (if f < t then CostInRange(a, s, e) - CostInRange(a, s, d) else 0)
  {
    hide Boundary, ChargesCents, CostInRange;
    assert (periods + [a])[..|periods|] == periods;
    FirstDayAfterNewYear(year, from);
    NoRange(a, Boundary(year, 0));
  }

  lemma NoRange(a: Terms, day: nat)
    ensures CostInRange(a, day, day) == 0
  {
  }

  /** Without sources there is nothing. */
  lemma NothingCostsNothing(year: nat, from: nat, to: nat, m: nat)
    ensures Month([], [], year, from, to, m) == 0
  {
  }
}
