/**
 Which lines an invoice has, said on the rows it is made from: each periodic source bills exactly
 its completed, unlocked sub-periods that are not settled, each one-off charge is billed exactly
 while it is open, and the amounts and days are those of the rows.
 */
module BilledLines {
  import opened Calendar
  import opened PeriodKeys
  import opened Accrual
  import opened AccrualLaws
  import opened OwedLines
  import opened InvoiceLines

  // ---------- one sub-period of a source ----------

  /** First day the accrual has in its `i`-th sub-period. */
  function FirstDay(a: Terms, i: nat): nat {
    var s := PeriodStart(a.period, i);
    if s < a.start then a.start else s
  }

  /** The day after its last one there. */
  function DayAfter(a: Terms, i: nat): nat {
    var e := PeriodStart(a.period, i + 1);
    if a.end.Some? && a.end.value + 1 < e then a.end.value + 1 else e
  }

  /** What the accrual costs in the sub-period, up to some day. */
  function CostUpTo(a: Terms, i: nat, day: nat): int {
    SliceCents(a, FirstDay(a, i), Min(day, DayAfter(a, i)), PeriodLength(a.period, i))
  }

  function Cost(a: Terms, i: nat): int {
    CostUpTo(a, i, DayAfter(a, i))
  }

  /** The sub-period has days of the accrual, and all of them are over. */
  predicate Over(a: Terms, i: nat, asOf: nat) {
    FirstDay(a, i) < DayAfter(a, i) <= asOf
  }

  /**
   What is still owed for the sub-period: nothing if it is marked paid, its cost less a fixed part,
   or the cost of its days from the settled day on.
   */
  function Owed(a: Terms, i: nat, s: Settlement): int {
    match s
    case ByPeriod(all, paid, fixed) =>
      var key := PeriodKey(a.period, i);
      if all || key in paid then 0 else if key in fixed then Cost(a, i) - fixed[key] else Cost(a, i)
    case Through(until) => if until.None? then Cost(a, i) else Cost(a, i) - CostUpTo(a, i, until.value)
  }

  /** The line of the `i`-th sub-period. */
  ghost predicate Bills(
    a: Terms, asOf: nat, s: Settlement, kind: Kind, ref: nat, locked: set<Position>, i: nat, it: OwedItem)
  {
    && Over(a, i, asOf) && Cost(a, i) > 0
    && it.amount == Owed(a, i, s) > 0
    && it.position == Position(kind, ref, PeriodKey(a.period, i)) && it.position !in locked
    && it.date == FirstDay(a, i) && it.lastDay == DayAfter(a, i) - 1
  }

  // ---------- which sub-periods are walked ----------

  predicate Meets(p: BillingPeriod, from: nat, to: nat, i: nat) {
    Max(from, PeriodStart(p, i)) < Min(to, PeriodStart(p, i + 1))
  }

  function Part(p: BillingPeriod, from: nat, to: nat, i: nat): Slice
    requires Meets(p, from, to, i)
  {
    Slice(Max(from, PeriodStart(p, i)), Min(to, PeriodStart(p, i + 1)), i)
  }

  /** The walk visits exactly the sub-periods that have a day in the range, each cut to it. */
  lemma {:induction false} WalkMeets(p: BillingPeriod, from: nat, to: nat, sl: Slice)
    ensures sl in SubPeriods(p, from, to) <==> Meets(p, from, to, sl.index) && sl == Part(p, from, to, sl.index)
    decreases if from < to then to - from else 0
  {
    hide PeriodStart, PeriodOf, Part, Meets;
    if from < to {
      var i := PeriodOf(p, from);
      var e := Min(to, PeriodStart(p, i + 1));
      WalkMeets(p, e, to, sl);
      FirstPart(p, from, to, i, sl.index);
      assert SubPeriods(p, from, to) == [Slice(from, e, i)] + SubPeriods(p, e, to);
    } else {
      NothingMeets(p, from, to, sl.index);
    }
  }

  lemma NothingMeets(p: BillingPeriod, from: nat, to: nat, j: nat)
    requires to <= from
    ensures !Meets(p, from, to, j)
  {
    hide PeriodStart;
  }

  /** The first sub-period is cut at its end, the others do not see the days before it. */
  lemma FirstPart(p: BillingPeriod, from: nat, to: nat, i: nat, j: nat)
    requires from < to && PeriodStart(p, i) <= from < PeriodStart(p, i + 1)
    ensures var e := Min(to, PeriodStart(p, i + 1));
      if j == i then
        Meets(p, from, to, j) && Part(p, from, to, j) == Slice(from, e, i) && !Meets(p, e, to, j)
      else
        (Meets(p, from, to, j) <==> Meets(p, e, to, j)) && (Meets(p, e, to, j) ==> Part(p, from, to, j) == Part(p, e, to, j))
  {
    if j < i {
      PeriodStartOrdered(p, j + 1, i);
    } else if i < j {
      PeriodStartOrdered(p, i + 1, j);
    }
    PeriodStartStep(p, j);
    hide PeriodStart;
  }

  /** A completed sub-period is walked whole. */
  lemma OverIsWalkedWhole(a: Terms, asOf: nat, i: nat)
    ensures Over(a, i, asOf) ==>
      var w := WindowEnd(a, asOf + 1);
      Meets(a.period, a.start, w, i) && Part(a.period, a.start, w, i) == Slice(FirstDay(a, i), DayAfter(a, i), i)
    ensures var w := WindowEnd(a, asOf + 1);
      Meets(a.period, a.start, w, i) ==> (PeriodEnd(a, i) < asOf + 1 <==> Over(a, i, asOf))
  {
    PeriodStartStep(a.period, i);
    hide PeriodStart;
  }

  lemma ElapsedAreTheSlices(a: Terms, asOf: nat, k: nat)
    requires k < |Elapsed(a, asOf)|
    ensures k < |SubPeriods(a.period, a.start, WindowEnd(a, asOf + 1))|
    ensures Elapsed(a, asOf)[k] == Describe(a, asOf, SubPeriods(a.period, a.start, WindowEnd(a, asOf + 1))[k])
  {
    hide PeriodStart, PeriodOf, SliceCents, SubPeriods;
  }

  // ---------- the lines of a source ----------

  /** The elapsed sub-period `i` as the code lists it. */
  function Listed(a: Terms, asOf: nat, i: nat): ElapsedPeriod {
    Describe(a, asOf, Slice(FirstDay(a, i), DayAfter(a, i), i))
  }

  lemma ListedIsOver(a: Terms, asOf: nat, i: nat)
    requires Over(a, i, asOf)
    ensures Listed(a, asOf, i) == ElapsedPeriod(i, FirstDay(a, i), Cost(a, i), true)
  {
    hide PeriodStart, SliceCents, PeriodLength;
  }

  /** What is taken as paid of a completed sub-period leaves exactly what is owed for it. */
  lemma PaidLeavesOwed(a: Terms, asOf: nat, i: nat, s: Settlement)
    requires Over(a, i, asOf) && YearOf(a.period, i) <= MAX_YEAR
    ensures Cost(a, i) - PaidFor(a, Listed(a, asOf, i), s) == Owed(a, i, s)
  {
    ListedIsOver(a, asOf, i);
    if s.Through? {
      var sl := Slice(FirstDay(a, i), DayAfter(a, i), i);
      if s.until.Some? {
        RunsOut(a, asOf, i);
        PortionIsCostBefore(a, asOf, sl, s.until.value);
      }
    }
    hide PeriodStart, SliceCents, PeriodLength, PeriodKey, SliceRunsOut, PeriodKeyEnd;
  }

  lemma RunsOut(a: Terms, asOf: nat, i: nat)
    requires Over(a, i, asOf) && YearOf(a.period, i) <= MAX_YEAR
    ensures SliceRunsOut(a, Slice(FirstDay(a, i), DayAfter(a, i), i))
  {
    PeriodOfUnique(a.period, FirstDay(a, i), i);
    hide PeriodStart;
  }

  lemma LineIsBilled(
    a: Terms, asOf: nat, s: Settlement, kind: Kind, ref: nat, locked: set<Position>, i: nat, it: OwedItem)
    requires Over(a, i, asOf) && YearOf(a.period, i) <= MAX_YEAR
    ensures LineOf(a, Listed(a, asOf, i), s, kind, ref, locked) == Some(it) <==> Bills(a, asOf, s, kind, ref, locked, i, it)
  {
    hide PaidFor, Owed, Cost, PeriodKey, PeriodKeyEnd, PeriodStart, Listed, FirstDay, DayAfter;
    ListedIsOver(a, asOf, i);
    PaidLeavesOwed(a, asOf, i, s);
    LastDayIs(a, i);
  }

  /** The code finds a line's last day from the text of its key. */
  lemma LastDayIs(a: Terms, i: nat)
    requires YearOf(a.period, i) <= MAX_YEAR
    ensures var keyEnd := PeriodKeyEnd(PeriodKey(a.period, i));
      DayAfter(a, i) == if a.end.Some? && a.end.value + 1 < keyEnd then a.end.value + 1 else keyEnd
  {
    hide PeriodKey, PeriodKeyEnd, PeriodStart;
    KeyEndInvertsKey(a.period, i);
  }

  lemma IncompleteHasNoLine(
    a: Terms, per: ElapsedPeriod, s: Settlement, kind: Kind, ref: nat, locked: set<Position>)
    requires !per.complete
    ensures LineOf(a, per, s, kind, ref, locked).None?
  {
    hide PaidFor, PeriodKey, PeriodKeyEnd;
  }

  /** A periodic source has exactly the lines of its completed, unlocked, unsettled sub-periods. */
  lemma SourceBills(
    a: Terms, asOf: nat, s: Settlement, kind: Kind, ref: nat, locked: set<Position>, it: OwedItem)
    requires KeysParse(a, asOf)
    ensures it in LinesOf(a, Elapsed(a, asOf), s, kind, ref, locked)
      <==> exists i :: Bills(a, asOf, s, kind, ref, locked, i, it)
  {
    hide LineOf, LinesOf, Elapsed, SubPeriods, PeriodStart, PeriodOf, Describe, Bills, Over, YearOf;
    var ps, w := Elapsed(a, asOf), WindowEnd(a, asOf + 1);
    InLinesOf(a, ps, s, kind, ref, locked, it);
    if k :| 0 <= k < |ps| && LineOf(a, ps[k], s, kind, ref, locked) == Some(it) {
      LineComesFrom(a, asOf, s, kind, ref, locked, k, it);
    }
    if i :| Bills(a, asOf, s, kind, ref, locked, i, it) {
      BilledIsListed(a, asOf, s, kind, ref, locked, i, it);
    }
  }

  lemma LineComesFrom(
    a: Terms, asOf: nat, s: Settlement, kind: Kind, ref: nat, locked: set<Position>, k: nat, it: OwedItem)
    requires KeysParse(a, asOf) && k < |Elapsed(a, asOf)|
    requires LineOf(a, Elapsed(a, asOf)[k], s, kind, ref, locked) == Some(it)
    ensures Bills(a, asOf, s, kind, ref, locked, Elapsed(a, asOf)[k].index, it)
  {
    hide LineOf, SubPeriods, PeriodStart, PeriodOf, Bills, SliceCents, PeriodLength, YearOf, Elapsed;
    var w := WindowEnd(a, asOf + 1);
    ElapsedAreTheSlices(a, asOf, k);
    var sl := SubPeriods(a.period, a.start, w)[k];
    WalkMeets(a.period, a.start, w, sl);
    OverIsWalkedWhole(a, asOf, sl.index);
    if PeriodEnd(a, sl.index) < asOf + 1 {
      YearParses(a, asOf, sl.index);
      assert Elapsed(a, asOf)[k] == Listed(a, asOf, sl.index);
      LineIsBilled(a, asOf, s, kind, ref, locked, sl.index, it);
    } else {
      IncompleteHasNoLine(a, Elapsed(a, asOf)[k], s, kind, ref, locked);
    }
  }

  lemma YearParses(a: Terms, asOf: nat, i: nat)
    requires KeysParse(a, asOf) && Over(a, i, asOf)
    ensures YearOf(a.period, i) <= MAX_YEAR
  {
    var n := PeriodOf(a.period, asOf);
    if n < i { PeriodStartOrdered(a.period, n + 1, i); }
    hide PeriodStart, PeriodOf;
  }

  lemma BilledIsListed(
    a: Terms, asOf: nat, s: Settlement, kind: Kind, ref: nat, locked: set<Position>, i: nat, it: OwedItem)
    requires KeysParse(a, asOf) && Bills(a, asOf, s, kind, ref, locked, i, it)
    ensures exists k :: 0 <= k < |Elapsed(a, asOf)| && LineOf(a, Elapsed(a, asOf)[k], s, kind, ref, locked) == Some(it)
  {
    assert Over(a, i, asOf);
    hide LineOf, SubPeriods, PeriodStart, PeriodOf, Bills, SliceCents, PeriodLength, YearOf, Over;
    var w := WindowEnd(a, asOf + 1);
    OverIsWalkedWhole(a, asOf, i);
    var sl := Slice(FirstDay(a, i), DayAfter(a, i), i);
    WalkMeets(a.period, a.start, w, sl);
    YearParses(a, asOf, i);
    LineIsBilled(a, asOf, s, kind, ref, locked, i, it);
    var slices := SubPeriods(a.period, a.start, w);
    var k :| 0 <= k < |slices| && slices[k] == sl;
    assert |Elapsed(a, asOf)| == |slices| && Elapsed(a, asOf)[k] == Listed(a, asOf, i);
  }

  // ---------- all lines ----------

  /** Price times quantity in hundredths, to the nearest cent; a quantity that is not positive counts as one. */
  predicate ChargePrice(amount: int, quantity: int, total: int) {
    var n := amount * (if quantity <= 0 then 100 else quantity);
    2 * n - 100 < 200 * total <= 2 * n + 100
  }

  lemma TotalIsPrice(amount: int, quantity: int, total: int)
    requires total > 0
    ensures ChargeTotal(amount, quantity) == total <==> ChargePrice(amount, quantity, total)
  {
    var n := amount * (if quantity <= 0 then 100 else quantity);
    assert ChargeTotal(amount, quantity) == RoundDiv(n, 100);
    hide ChargeTotal;
  }

  /** An open charge is billed on its day at its price. */
  predicate ChargeBills(c: Charge, locked: set<Position>, it: OwedItem) {
    && !c.paid && !c.claimed && it.amount > 0 && ChargePrice(c.amount, c.quantity, it.amount)
    && it.position == Position(OneOffCharge, c.id, "") && it.position !in locked
    && it.date == c.on && it.lastDay == c.on
  }

  /** Rent is settled through the paid-through day, inclusive. */
  function RentSettled(v: Vehicle): Settlement {
    Through(match v.paidThrough case None => None case Some(day) => Some(day + 1))
  }

  ghost predicate VehicleBills(v: Vehicle, asOf: nat, locked: set<Position>, it: OwedItem) {
    !v.archived && !v.covered && exists i :: Bills(v.terms, asOf, RentSettled(v), VehicleRent, v.id, locked, i, it)
  }

  ghost predicate SourceRowBills(s: Source, asOf: nat, locked: set<Position>, it: OwedItem) {
    exists i :: Bills(s.terms, asOf, s.settlement, s.kind, s.ref, locked, i, it)
  }

  ghost predicate IsBilled(b: Billable, asOf: nat, locked: set<Position>, it: OwedItem) {
    || (exists c :: c in b.charges && ChargeBills(c, locked, it))
    || (exists v :: v in b.vehicles && VehicleBills(v, asOf, locked, it))
    || (exists s :: s in b.agreements && SourceRowBills(s, asOf, locked, it))
    || (exists s :: s in b.recurring && SourceRowBills(s, asOf, locked, it))
  }

  lemma ChargeLineBills(c: Charge, bound: bool, locked: set<Position>, it: OwedItem)
    ensures ChargeLine(c, bound, locked) == Some(it) <==> c.bound == bound && ChargeBills(c, locked, it)
  {
    if it.amount > 0 { TotalIsPrice(c.amount, c.quantity, it.amount); }
    hide ChargeTotal, ChargePrice;
  }

  lemma {:induction false} ChargesBill(cs: seq<Charge>, bound: bool, locked: set<Position>, it: OwedItem)
    ensures it in ChargeLines(cs, bound, locked) <==> exists c :: c in cs && c.bound == bound && ChargeBills(c, locked, it)
  {
    hide ChargeLine, ChargeBills;
    if cs != [] {
      var last := |cs| - 1;
      ChargesBill(cs[..last], bound, locked, it);
      ChargeLineBills(cs[last], bound, locked, it);
      assert forall c :: c in cs <==> c in cs[..last] || c == cs[last] by { assert cs == cs[..last] + [cs[last]]; }
    }
  }

  ghost predicate Parses(asOf: nat) {
    forall p :: YearOf(p, PeriodOf(p, asOf)) <= MAX_YEAR
  }

  lemma {:induction false} SourcesBill(ss: seq<Source>, asOf: nat, locked: set<Position>, it: OwedItem)
    requires Parses(asOf)
    ensures it in SourceLines(ss, asOf, locked) <==> exists s :: s in ss && SourceRowBills(s, asOf, locked, it)
  {
    hide Elapsed, LinesOf, Bills, PeriodOf, SourceRowBills;
    if ss != [] {
      var last := |ss| - 1;
      SourcesBill(ss[..last], asOf, locked, it);
      RowBills(ss[last], asOf, locked, it);
      assert forall s :: s in ss <==> s in ss[..last] || s == ss[last] by { assert ss == ss[..last] + [ss[last]]; }
    }
  }

  lemma RowBills(s: Source, asOf: nat, locked: set<Position>, it: OwedItem)
    requires Parses(asOf)
    ensures it in LinesOf(s.terms, Elapsed(s.terms, asOf), s.settlement, s.kind, s.ref, locked)
      <==> SourceRowBills(s, asOf, locked, it)
  {
    hide Elapsed, LinesOf, Bills, PeriodOf, YearOf;
    assert KeysParse(s.terms, asOf);
    SourceBills(s.terms, asOf, s.settlement, s.kind, s.ref, locked, it);
  }

  lemma {:induction false} VehiclesBill(vs: seq<Vehicle>, asOf: nat, locked: set<Position>, it: OwedItem)
    ensures (exists s :: s in VehicleSources(vs) && SourceRowBills(s, asOf, locked, it))
      <==> exists v :: v in vs && VehicleBills(v, asOf, locked, it)
  {
    hide Bills;
    if vs != [] {
      var last := |vs| - 1;
      VehiclesBill(vs[..last], asOf, locked, it);
      assert forall v :: v in vs <==> v in vs[..last] || v == vs[last] by { assert vs == vs[..last] + [vs[last]]; }
      var source := Source(VehicleRent, vs[last].id, vs[last].terms, RentSettled(vs[last]));
      assert VehicleSources(vs)
          == VehicleSources(vs[..last]) + (if vs[last].archived || vs[last].covered then [] else [source]);
      assert !vs[last].archived && !vs[last].covered ==>
        (SourceRowBills(source, asOf, locked, it) <==> VehicleBills(vs[last], asOf, locked, it));
      hide VehicleSources, SourceRowBills;
    }
  }

  /** The lines of the next invoice are exactly what the rows owe: nothing is missing, and nothing else is billed. */
  lemma InvoiceBills(b: Billable, asOf: nat, locked: set<Position>, it: OwedItem)
    requires Parses(asOf)
    ensures it in AllLines(b, asOf, locked) <==> IsBilled(b, asOf, locked, it)
  {
    hide ChargeLines, SourceLines, VehicleSources, Bills, ChargeBills, VehicleBills, SourceRowBills, Parses;
    ChargesBill(b.charges, false, locked, it);
    ChargesBill(b.charges, true, locked, it);
    SourcesBill(VehicleSources(b.vehicles), asOf, locked, it);
    VehiclesBill(b.vehicles, asOf, locked, it);
    SourcesBill(b.agreements, asOf, locked, it);
    SourcesBill(b.recurring, asOf, locked, it);
  }
}
