/**
 What an invoice bills: one line per completed, still open, not yet invoiced sub-period of
 every periodic accrual, plus the open one-off charges.
 */
module OwedLines {
  import opened Calendar
  import opened PeriodKeys
  import opened Accrual

  datatype Kind = VehicleRent | OneOffCharge | Agreement | Recurring

  /** A billable position: the sub-period key is empty for one-off charges. */
  datatype Position = Position(kind: Kind, ref: nat, period: string)

  datatype OwedItem = OwedItem(date: nat, lastDay: int, position: Position, amount: int)

  /** An elapsed sub-period with its accrued cost. */
  datatype ElapsedPeriod = ElapsedPeriod(index: nat, start: nat, cost: int, complete: bool)

  /** What is already settled of one sub-period: by whole periods, by a fixed part, or up to a day. */
  datatype Settlement =
    | Through(until: Option<nat>)
    | ByPeriod(all: bool, paid: set<string>, fixed: map<string, int>)

  // ---------- elapsed periods ----------

  function PeriodEnd(a: Terms, i: nat): nat {
    var e := PeriodStart(a.period, i + 1);
    if a.end.Some? && a.end.value + 1 < e then a.end.value + 1 else e
  }

  function Describe(a: Terms, asOf: nat, sl: Slice): ElapsedPeriod {
    ElapsedPeriod(sl.index, sl.from, SliceCents(a, sl.from, sl.to, PeriodLength(a.period, sl.index)),
                  PeriodEnd(a, sl.index) < asOf + 1)
  }

  /** Every sub-period begun by `asOf`, oldest first; complete once its end lies before today. */
  function Elapsed(a: Terms, asOf: nat): seq<ElapsedPeriod> {
    var slices := SubPeriods(a.period, a.start, WindowEnd(a, asOf + 1));
    seq(|slices|, k requires 0 <= k < |slices| => Describe(a, asOf, slices[k]))
  }

  method ComputeElapsed(a: Terms, asOf: nat) returns (periods: seq<ElapsedPeriod>)
    ensures periods == Elapsed(a, asOf)
  {
    hide SliceCents, PeriodStart, PeriodLength;
    var slices := WalkSubPeriods(a.period, a.start, WindowEnd(a, asOf + 1));
    periods := [];
    for k := 0 to |slices|
      invariant |periods| == k
      invariant forall j :: 0 <= j < k ==> periods[j] == Describe(a, asOf, slices[j])
    {
      var sl := slices[k];
      SubPeriodsNonEmpty(a.period, a.start, WindowEnd(a, asOf + 1), k);
      var cents := ComputeSliceCents(a, sl.from, sl.to, PeriodLength(a.period, sl.index));
      periods := periods + [ElapsedPeriod(sl.index, sl.from, cents, PeriodEnd(a, sl.index) < asOf + 1)];
    }
  }

  /** Slices lie in their period and in the range; all but the first begin with their period. */
  lemma {:induction false} SubPeriodsNonEmpty(p: BillingPeriod, from: nat, to: nat, k: nat)
    requires k < |SubPeriods(p, from, to)|
    ensures var sl := SubPeriods(p, from, to)[k];
      && from <= sl.from < sl.to <= to && sl.to <= PeriodStart(p, sl.index + 1)
      && sl.index == PeriodOf(p, sl.from)
      && (sl.from == from || sl.from == PeriodStart(p, sl.index))
    decreases k
  {
    hide PeriodStart, PeriodOf;
    var i := PeriodOf(p, from);
    var e := Min(to, PeriodStart(p, i + 1));
    if k > 0 {
      var sl := SubPeriods(p, e, to)[k - 1];
      assert sl == SubPeriods(p, from, to)[k];
      PeriodOfStart(p, i + 1);
      SubPeriodsNonEmpty(p, e, to, k - 1);
    }
  }

  lemma PeriodOfStart(p: BillingPeriod, i: nat)
    ensures PeriodOf(p, PeriodStart(p, i)) == i
  {
    PeriodStartStep(p, i);
    hide PeriodStart;
    PeriodOfUnique(p, PeriodStart(p, i), i);
  }

  /** Where the completed periods end: the running period is never part of them. */
  function CompletedThrough(a: Terms, asOf: nat): nat {
    if a.end.Some? && a.end.value < asOf then a.end.value + 1
    else PeriodStart(a.period, PeriodOf(a.period, asOf))
  }

  // ---------- settlement of one period ----------

  /** How much of one sub-period's cost falls before `until`, the first day not settled. */
  function SettledPortion(a: Terms, per: ElapsedPeriod, until: Option<nat>): int {
    if until.None? || until.value <= per.start then 0
    else if until.value >= PeriodKeyEnd(PeriodKey(a.period, per.index)) then per.cost
    else Min(CostInRange(a, per.start, until.value), per.cost)
  }

  function PaidFor(a: Terms, per: ElapsedPeriod, s: Settlement): int {
    match s
    case Through(until) => SettledPortion(a, per, until)
    case ByPeriod(all, paid, fixed) =>
      var key := PeriodKey(a.period, per.index);
      if all || key in paid then per.cost
      else if key in fixed then fixed[key]
      else 0
  }

  /** The line of one sub-period, if it has one. */
  function LineOf(a: Terms, per: ElapsedPeriod, s: Settlement, kind: Kind, ref: nat, locked: set<Position>)
    : (r: Option<OwedItem>)
  {
    var open := per.cost - PaidFor(a, per, s);
    var position := Position(kind, ref, PeriodKey(a.period, per.index));
    if !per.complete || per.cost <= 0 || open <= 0 || position in locked then None
    else
      var keyEnd := PeriodKeyEnd(position.period);
      var end := if a.end.Some? && a.end.value + 1 < keyEnd then a.end.value + 1 else keyEnd;
      Some(OwedItem(per.start, end - 1, position, open))
  }

  function LinesOf(a: Terms, periods: seq<ElapsedPeriod>, s: Settlement, kind: Kind, ref: nat, locked: set<Position>)
    : seq<OwedItem>
  {
    if periods == [] then []
    else
      var last := |periods| - 1;
      LinesOf(a, periods[..last], s, kind, ref, locked)
      + (match LineOf(a, periods[last], s, kind, ref, locked) case None => [] case Some(it) => [it])
  }

  method PeriodOwedLines(a: Terms, asOf: nat, s: Settlement, kind: Kind, ref: nat, locked: set<Position>)
    returns (lines: seq<OwedItem>)
    ensures lines == LinesOf(a, Elapsed(a, asOf), s, kind, ref, locked)
  {
    hide Elapsed, LineOf, PaidFor;
    var periods := ComputeElapsed(a, asOf);
    lines := [];
    for k := 0 to |periods|
      invariant lines == LinesOf(a, periods[..k], s, kind, ref, locked)
    {
      assert periods[..k + 1][..k] == periods[..k];
      var line := LineOf(a, periods[k], s, kind, ref, locked);
      if line.Some? { lines := lines + [line.value]; }
    }
    assert periods[..|periods|] == periods;
  }

  // ---------- no cent lost, no cent billed twice ----------

  function SumCompleted(a: Terms, periods: seq<ElapsedPeriod>, until: Option<nat>): int {
    if periods == [] then 0
    else (if periods[0].complete then SettledPortion(a, periods[0], until) else 0)
         + SumCompleted(a, periods[1..], until)
  }

  function SumCompletedCost(periods: seq<ElapsedPeriod>): int {
    if periods == [] then 0
    else (if periods[0].complete then periods[0].cost else 0) + SumCompletedCost(periods[1..])
  }

  function SumLines(lines: seq<OwedItem>): int {
    if lines == [] then 0 else SumLines(lines[..|lines| - 1]) + lines[|lines| - 1].amount
  }

  predicate KeysParse(a: Terms, asOf: nat) {
    YearOf(a.period, PeriodOf(a.period, asOf)) <= MAX_YEAR
  }

  /** A complete sub-period runs to its calendar end or to the accrual's own end. */
  predicate SliceRunsOut(a: Terms, sl: Slice) {
    && sl.from < sl.to && sl.index == PeriodOf(a.period, sl.from)
    && a.start <= sl.from && sl.to == PeriodEnd(a, sl.index)
    && YearOf(a.period, sl.index) <= MAX_YEAR
  }

  /** The settled portion is the cost of the period's days before `until`, to the cent. */
  lemma PortionIsCostBefore(a: Terms, asOf: nat, sl: Slice, until: nat)
    requires SliceRunsOut(a, sl)
    ensures SettledPortion(a, Describe(a, asOf, sl), Some(until))
         == SliceCents(a, sl.from, Min(until, sl.to), PeriodLength(a.period, sl.index))
  {
    var per := Describe(a, asOf, sl);
    var len, keyEnd := PeriodLength(a.period, sl.index), PeriodStart(a.period, sl.index + 1);
    KeyEndInvertsKey(a.period, sl.index);
    hide PeriodStart, PeriodLength, PeriodKey, PeriodKeyEnd;
    var x := Min(until, sl.to);
    if sl.from < until < keyEnd {
      assert WindowEnd(a, until) == x;
      SliceMonotone(a, sl.from, x, sl.to, len);
      WalkUnfolds(a, sl.from, x);
      NoDaysWalked(a, x, x);
    } else {
      NoDaysNoCost(a, sl.from, x, len);
    }
    hide WalkCost, SliceCents, PeriodOf;
  }

  /** Between nothing and the whole cost, and never shrinking as the settled day moves on. */
  lemma PortionBounds(a: Terms, asOf: nat, sl: Slice, until: nat, later: nat)
    requires SliceRunsOut(a, sl) && until <= later
    ensures var per := Describe(a, asOf, sl);
      0 <= SettledPortion(a, per, Some(until)) <= SettledPortion(a, per, Some(later)) <= per.cost
  {
    PortionIsCostBefore(a, asOf, sl, until);
    PortionIsCostBefore(a, asOf, sl, later);
    hide SettledPortion, SliceCents, PeriodLength, PeriodStart;
    SliceMonotone(a, sl.from, Min(until, sl.to), Min(later, sl.to), PeriodLength(a.period, sl.index));
    SliceMonotone(a, sl.from, Min(later, sl.to), sl.to, PeriodLength(a.period, sl.index));
  }

  function ElapsedFrom(a: Terms, asOf: nat, s: nat): seq<ElapsedPeriod> {
    var slices := SubPeriods(a.period, s, WindowEnd(a, asOf + 1));
    seq(|slices|, k requires 0 <= k < |slices| => Describe(a, asOf, slices[k]))
  }

  lemma ElapsedUnfolds(a: Terms, asOf: nat, s: nat)
    requires s < WindowEnd(a, asOf + 1)
    ensures var sl := SubPeriods(a.period, s, WindowEnd(a, asOf + 1))[0];
      ElapsedFrom(a, asOf, s) == [Describe(a, asOf, sl)] + ElapsedFrom(a, asOf, sl.to)
  {
    hide Describe, PeriodStart, PeriodOf;
    var w := WindowEnd(a, asOf + 1);
    var i := PeriodOf(a.period, s);
    var e := Min(w, PeriodStart(a.period, i + 1));
    assert SubPeriods(a.period, s, w) == [Slice(s, e, i)] + SubPeriods(a.period, e, w);
  }

  /** Which sub-periods of the walk are complete, and that CompletedThrough bounds them. */
  lemma CompletionBoundary(a: Terms, asOf: nat, s: nat)
    requires a.start <= s < WindowEnd(a, asOf + 1)
    requires YearOf(a.period, PeriodOf(a.period, asOf)) <= MAX_YEAR
    ensures var w, t, i := WindowEnd(a, asOf + 1), CompletedThrough(a, asOf), PeriodOf(a.period, s);
      var c := Min(w, PeriodStart(a.period, i + 1));
      && t <= w
      && (PeriodEnd(a, i) < asOf + 1 ==>
            c <= t && SliceRunsOut(a, Slice(s, c, i)) && (c < PeriodStart(a.period, i + 1) ==> t == c))
      && (PeriodEnd(a, i) >= asOf + 1 ==> c == w && t <= s)
  {
    hide PeriodOf, PeriodStart, PeriodLength;
    var w, i, n := WindowEnd(a, asOf + 1), PeriodOf(a.period, s), PeriodOf(a.period, asOf);
    PeriodOfMonotone(a.period, s, asOf);
    if PeriodEnd(a, i) < asOf + 1 {
      if n == i { } else { PeriodStartOrdered(a.period, i + 1, n); }
      assert YearOf(a.period, i) <= YearOf(a.period, n);
    } else {
      PeriodOfUnique(a.period, asOf, i);
    }
  }

  lemma WalkUnfolds(a: Terms, s: nat, e: nat)
    requires s < e
    ensures var i := PeriodOf(a.period, s);
      var c := Min(e, PeriodStart(a.period, i + 1));
      WalkCost(a, s, e) == SliceCents(a, s, c, PeriodLength(a.period, i)) + WalkCost(a, c, e)
  {
    hide SliceCents, PeriodStart, PeriodLength;
  }

  /** Cutting a walk at the end `c` of its first slice, whichever of the two days comes first. */
  lemma FirstSliceSplits(a: Terms, s: nat, c: nat, until: nat, t: nat)
    requires var next := PeriodStart(a.period, PeriodOf(a.period, s) + 1);
      s < c <= next && c <= t && (c < next ==> t == c)
    ensures WalkCost(a, s, Min(until, t))
         == SliceCents(a, s, Min(until, c), PeriodLength(a.period, PeriodOf(a.period, s)))
            + WalkCost(a, c, Min(until, t))
  {
    hide PeriodStart, PeriodOf, PeriodLength, SliceCents, WalkCost;
    var e := Min(until, t);
    NoDaysNoCost(a, s, Min(until, c), PeriodLength(a.period, PeriodOf(a.period, s)));
    NoDaysWalked(a, s, e);
    NoDaysWalked(a, c, e);
    NoDaysWalked(a, e, e);
    if s < e { WalkUnfolds(a, s, e); }
  }

  lemma {:induction false} SettledFrom(a: Terms, asOf: nat, s: nat, until: nat)
    requires a.start <= s && KeysParse(a, asOf)
    ensures SumCompleted(a, ElapsedFrom(a, asOf, s), Some(until))
         == WalkCost(a, s, Min(until, CompletedThrough(a, asOf)))
    decreases if s < WindowEnd(a, asOf + 1) then WindowEnd(a, asOf + 1) - s else 0
  {
    var w, t := WindowEnd(a, asOf + 1), CompletedThrough(a, asOf);
    WindowBeyondCompleted(a, asOf);
    hide CompletedThrough, SliceCents, PeriodStart, PeriodLength, SettledPortion;
    if s < w {
      var i := PeriodOf(a.period, s);
      var c := Min(w, PeriodStart(a.period, i + 1));
      var sl := Slice(s, c, i);
      assert SubPeriods(a.period, s, w)[0] == sl;
      ElapsedUnfolds(a, asOf, s);
      CompletionBoundary(a, asOf, s);
      SettledFrom(a, asOf, c, until);
      assert ElapsedFrom(a, asOf, s)[1..] == ElapsedFrom(a, asOf, c);
      hide ElapsedFrom, WalkCost, SubPeriods;
      if PeriodEnd(a, i) < asOf + 1 {
        PortionIsCostBefore(a, asOf, sl, until);
        FirstSliceSplits(a, s, c, until, t);
      } else {
        NoDaysWalked(a, s, Min(until, t));
        NoDaysWalked(a, c, Min(until, t));
      }
    }
  }

  lemma NoDaysWalked(a: Terms, s: nat, e: nat)
    ensures e <= s ==> WalkCost(a, s, e) == 0
  {
  }

  lemma NoDaysNoCost(a: Terms, s: nat, e: nat, len: nat)
    ensures e <= s ==> SliceCents(a, s, e, len) == 0
  {
  }

  lemma WindowBeyondCompleted(a: Terms, asOf: nat)
    ensures CompletedThrough(a, asOf) <= WindowEnd(a, asOf + 1)
    ensures forall x: nat :: x <= CompletedThrough(a, asOf) ==> WindowEnd(a, x) == x
  {
    hide PeriodStart;
  }

  /**
   Over all completed sub-periods the settled portions add up to exactly what accrued before
   the settled day, capped at the end of the last completed sub-period.
   */
  lemma SettlementAddsUp(a: Terms, asOf: nat, until: nat)
    requires KeysParse(a, asOf)
    ensures SumCompleted(a, Elapsed(a, asOf), Some(until))
         == CostInRange(a, a.start, Min(until, CompletedThrough(a, asOf)))
  {
    assert Elapsed(a, asOf) == ElapsedFrom(a, asOf, a.start);
    SettledFrom(a, asOf, a.start, until);
    WindowBeyondCompleted(a, asOf);
  }

  // ---------- the lines carry exactly what is not settled ----------

  lemma {:induction false} SumCompletedAppend(a: Terms, ps: seq<ElapsedPeriod>, q: ElapsedPeriod, until: Option<nat>)
    ensures SumCompleted(a, ps + [q], until)
         == SumCompleted(a, ps, until) + (if q.complete then SettledPortion(a, q, until) else 0)
    ensures SumCompletedCost(ps + [q]) == SumCompletedCost(ps) + (if q.complete then q.cost else 0)
  {
    hide SettledPortion;
    if ps == [] {
      assert ps + [q] == [q];
    } else {
      assert (ps + [q])[1..] == ps[1..] + [q];
      SumCompletedAppend(a, ps[1..], q, until);
    }
  }

  /** What a completed sub-period already on an active invoice still owes at this settlement. */
  function LockedRest(
    a: Terms, per: ElapsedPeriod, s: Settlement, kind: Kind, ref: nat, locked: set<Position>): int
  {
    if per.complete && Position(kind, ref, PeriodKey(a.period, per.index)) in locked
    then per.cost - PaidFor(a, per, s) else 0
  }

  function SumLocked(
    a: Terms, periods: seq<ElapsedPeriod>, s: Settlement, kind: Kind, ref: nat, locked: set<Position>): int
  {
    if periods == [] then 0
    else SumLocked(a, periods[..|periods| - 1], s, kind, ref, locked)
         + LockedRest(a, periods[|periods| - 1], s, kind, ref, locked)
  }

  /** One sub-period's cost goes to its line, to its invoice or to the settlement. */
  lemma LineCarriesTheRest(
    a: Terms, per: ElapsedPeriod, until: Option<nat>, kind: Kind, ref: nat, locked: set<Position>)
    requires per.complete ==> 0 <= SettledPortion(a, per, until) <= per.cost
    ensures var line := LineOf(a, per, Through(until), kind, ref, locked);
      (if line.Some? then line.value.amount else 0) + LockedRest(a, per, Through(until), kind, ref, locked)
      + (if per.complete then SettledPortion(a, per, until) else 0) == (if per.complete then per.cost else 0)
  {
    hide SettledPortion, PeriodKeyEnd, PeriodKey;
  }

  lemma {:induction false} LinesCarryTheRest(
    a: Terms, ps: seq<ElapsedPeriod>, until: Option<nat>, kind: Kind, ref: nat, locked: set<Position>)
    requires forall k :: 0 <= k < |ps| && ps[k].complete ==> 0 <= SettledPortion(a, ps[k], until) <= ps[k].cost
    ensures SumLines(LinesOf(a, ps, Through(until), kind, ref, locked))
          + SumLocked(a, ps, Through(until), kind, ref, locked)
          + SumCompleted(a, ps, until) == SumCompletedCost(ps)
  {
    hide SettledPortion, LineOf, LockedRest;
    if ps != [] {
      var last := |ps| - 1;
      LinesCarryTheRest(a, ps[..last], until, kind, ref, locked);
      SumCompletedAppend(a, ps[..last], ps[last], until);
      LineCarriesTheRest(a, ps[last], until, kind, ref, locked);
      assert ps == ps[..last] + [ps[last]];
      hide SumCompleted, SumCompletedCost;
      var before := LinesOf(a, ps[..last], Through(until), kind, ref, locked);
      var line := LineOf(a, ps[last], Through(until), kind, ref, locked);
      if line.Some? {
        assert (before + [line.value])[..|before|] == before;
      } else {
        assert before + [] == before;
      }
    }
  }

  /**
   No cent is lost and none is billed twice: for a rent settled through a day, the open lines,
   the rest of the sub-periods already invoiced and the settled portions together are the accrual
   through the last completed sub-period, whatever is invoiced already.
   */
  lemma LinesAndSettlementCoverAccrual(a: Terms, asOf: nat, until: nat, kind: Kind, ref: nat, locked: set<Position>)
    requires KeysParse(a, asOf)
    ensures SumLines(LinesOf(a, Elapsed(a, asOf), Through(Some(until)), kind, ref, locked))
          + SumLocked(a, Elapsed(a, asOf), Through(Some(until)), kind, ref, locked)
          + CostInRange(a, a.start, Min(until, CompletedThrough(a, asOf)))
         == CostInRange(a, a.start, CompletedThrough(a, asOf))
  {
    var ps, t := Elapsed(a, asOf), CompletedThrough(a, asOf);
    SettlementAddsUp(a, asOf, until);
    SettlementAddsUp(a, asOf, t);
    forall k | 0 <= k < |ps| && ps[k].complete
      ensures 0 <= SettledPortion(a, ps[k], Some(until)) <= ps[k].cost
      ensures SettledPortion(a, ps[k], Some(t)) == ps[k].cost
    {
      CompletedSliceRunsOut(a, asOf, k);
    }
    LinesCarryTheRest(a, ps, Some(until), kind, ref, locked);
    FullySettled(a, ps, t);
  }

  lemma CompletedSlice(a: Terms, asOf: nat, k: nat) returns (sl: Slice)
    requires KeysParse(a, asOf) && k < |Elapsed(a, asOf)| && Elapsed(a, asOf)[k].complete
    ensures Elapsed(a, asOf)[k] == Describe(a, asOf, sl)
    ensures SliceRunsOut(a, sl) && sl.to <= CompletedThrough(a, asOf)
  {
    hide PeriodStart, PeriodOf, CompletedThrough, SliceCents, PeriodLength, YearOf;
    var w := WindowEnd(a, asOf + 1);
    SubPeriodsNonEmpty(a.period, a.start, w, k);
    SliceEnd(a.period, a.start, w, k);
    sl := SubPeriods(a.period, a.start, w)[k];
    hide SubPeriods;
    CompletionBoundary(a, asOf, sl.from);
    assert sl == Slice(sl.from, sl.to, PeriodOf(a.period, sl.from));
  }

  lemma CompletedSliceRunsOut(a: Terms, asOf: nat, k: nat)
    requires KeysParse(a, asOf) && k < |Elapsed(a, asOf)| && Elapsed(a, asOf)[k].complete
    ensures var per := Elapsed(a, asOf)[k];
      && (forall u: nat :: 0 <= SettledPortion(a, per, Some(u)) <= per.cost)
      && SettledPortion(a, per, Some(CompletedThrough(a, asOf))) == per.cost
  {
    var sl := CompletedSlice(a, asOf, k);
    hide Elapsed, SettledPortion, CompletedThrough, PeriodStart, PeriodLength, SliceRunsOut, SliceCents;
    var per := Describe(a, asOf, sl);
    forall u: nat ensures 0 <= SettledPortion(a, per, Some(u)) <= per.cost {
      PortionBounds(a, asOf, sl, u, u);
    }
    PortionIsCostBefore(a, asOf, sl, CompletedThrough(a, asOf));
  }

  lemma {:induction false} SliceEnd(p: BillingPeriod, from: nat, to: nat, k: nat)
    requires k < |SubPeriods(p, from, to)|
    ensures var sl := SubPeriods(p, from, to)[k]; sl.to == Min(to, PeriodStart(p, PeriodOf(p, sl.from) + 1))
    decreases k
  {
    hide PeriodStart, PeriodOf;
    if k > 0 {
      var e := Min(to, PeriodStart(p, PeriodOf(p, from) + 1));
      assert SubPeriods(p, e, to)[k - 1] == SubPeriods(p, from, to)[k];
      SliceEnd(p, e, to, k - 1);
    }
  }

  lemma {:induction false} FullySettled(a: Terms, ps: seq<ElapsedPeriod>, t: nat)
    requires forall k :: 0 <= k < |ps| && ps[k].complete ==> SettledPortion(a, ps[k], Some(t)) == ps[k].cost
    ensures SumCompleted(a, ps, Some(t)) == SumCompletedCost(ps)
  {
    hide SettledPortion;
    if ps != [] {
      FullySettled(a, ps[1..], t);
    }
  }
}
