/**
 The complete list of lines for a person's next invoice, and why invoicing twice at the
 same moment finds nothing the second time.
 */
module InvoiceLines {
  import opened Calendar
  import opened PeriodKeys
  import opened Accrual
  import opened OwedLines

  /** A periodic accrual of the person, with what is already settled of it. */
  datatype Source = Source(kind: Kind, ref: nat, terms: Terms, settlement: Settlement)

  datatype Vehicle = Vehicle(id: nat, terms: Terms, paidThrough: Option<nat>, archived: bool, covered: bool)

  /** A one-off charge; quantity in hundredths. `claimed` means a payment already allocates to it. */
  datatype Charge = Charge(id: nat, bound: bool, paid: bool, claimed: bool, amount: int, quantity: int, on: nat)

  datatype Billable = Billable(
    vehicles: seq<Vehicle>,
    agreements: seq<Source>,
    recurring: seq<Source>,
    charges: seq<Charge>)

  function ChargeTotal(amount: int, quantity: int): int {
    RoundDiv(amount * (if quantity <= 0 then 100 else quantity), 100)
  }

  function ChargeLine(c: Charge, bound: bool, locked: set<Position>): Option<OwedItem> {
    var position := Position(OneOffCharge, c.id, "");
    var total := ChargeTotal(c.amount, c.quantity);
    if c.bound != bound || c.paid || c.claimed || total <= 0 || position in locked then None
    else Some(OwedItem(c.on, c.on, position, total))
  }

  function ChargeLines(cs: seq<Charge>, bound: bool, locked: set<Position>): seq<OwedItem> {
    if cs == [] then []
    else
      var last := |cs| - 1;
      ChargeLines(cs[..last], bound, locked)
      + (match ChargeLine(cs[last], bound, locked) case None => [] case Some(it) => [it])
  }

  function SourceLines(ss: seq<Source>, asOf: nat, locked: set<Position>): seq<OwedItem> {
    if ss == [] then []
    else
      var last := |ss| - 1;
      var s := ss[last];
      SourceLines(ss[..last], asOf, locked)
      + LinesOf(s.terms, Elapsed(s.terms, asOf), s.settlement, s.kind, s.ref, locked)
  }

  /** Uncovered, unarchived vehicles bill their own rent, settled through their paid-through day. */
  function VehicleSources(vs: seq<Vehicle>): seq<Source> {
    if vs == [] then []
    else
      var last := |vs| - 1;
      var v := vs[last];
      VehicleSources(vs[..last])
      + (if v.archived || v.covered then []
         else [Source(VehicleRent, v.id, v.terms,
                      Through(match v.paidThrough case None => None case Some(d) => Some(d + 1)))])
  }

  /** Standalone charges, vehicle rent, vehicle-bound charges, agreements, recurring costs. */
  function AllLines(b: Billable, asOf: nat, locked: set<Position>): seq<OwedItem> {
    ChargeLines(b.charges, false, locked)
    + SourceLines(VehicleSources(b.vehicles), asOf, locked)
    + ChargeLines(b.charges, true, locked)
    + SourceLines(b.agreements, asOf, locked)
    + SourceLines(b.recurring, asOf, locked)
  }

  method ComputeLines(b: Billable, asOf: nat, locked: set<Position>) returns (lines: seq<OwedItem>)
    ensures lines == AllLines(b, asOf, locked)
  {
    hide Elapsed, LinesOf, ChargeLine;
    var standalone := ComputeChargeLines(b.charges, false, locked);
    var sources := ComputeVehicleSources(b.vehicles);
    var rent := ComputeSourceLines(sources, asOf, locked);
    var bound := ComputeChargeLines(b.charges, true, locked);
    var flat := ComputeSourceLines(b.agreements, asOf, locked);
    var recurring := ComputeSourceLines(b.recurring, asOf, locked);
    lines := standalone + rent + bound + flat + recurring;
  }

  method ComputeChargeLines(cs: seq<Charge>, bound: bool, locked: set<Position>) returns (lines: seq<OwedItem>)
    ensures lines == ChargeLines(cs, bound, locked)
  {
    hide ChargeLine;
    lines := [];
    for k := 0 to |cs|
      invariant lines == ChargeLines(cs[..k], bound, locked)
    {
      assert cs[..k + 1][..k] == cs[..k];
      var line := ChargeLine(cs[k], bound, locked);
      if line.Some? { lines := lines + [line.value]; }
    }
    assert cs[..|cs|] == cs;
  }

  method ComputeVehicleSources(vs: seq<Vehicle>) returns (sources: seq<Source>)
    ensures sources == VehicleSources(vs)
  {
    sources := [];
    for k := 0 to |vs|
      invariant sources == VehicleSources(vs[..k])
    {
      assert vs[..k + 1][..k] == vs[..k];
      var v := vs[k];
      if !v.archived && !v.covered {
        var until: Option<nat> := None;
        if v.paidThrough.Some? { until := Some(v.paidThrough.value + 1); }
        sources := sources + [Source(VehicleRent, v.id, v.terms, Through(until))];
      }
    }
    assert vs[..|vs|] == vs;
  }

  method ComputeSourceLines(ss: seq<Source>, asOf: nat, locked: set<Position>) returns (lines: seq<OwedItem>)
    ensures lines == SourceLines(ss, asOf, locked)
  {
    hide Elapsed, LinesOf;
    lines := [];
    for k := 0 to |ss|
      invariant lines == SourceLines(ss[..k], asOf, locked)
    {
      assert ss[..k + 1][..k] == ss[..k];
      var s := ss[k];
      var more := PeriodOwedLines(s.terms, asOf, s.settlement, s.kind, s.ref, locked);
      lines := lines + more;
    }
    assert ss[..|ss|] == ss;
  }

  // ---------- membership ----------

  function Positions(lines: seq<OwedItem>): set<Position> {
    set k | 0 <= k < |lines| :: lines[k].position
  }

  lemma {:induction false} InLinesOf(
    a: Terms, ps: seq<ElapsedPeriod>, s: Settlement, kind: Kind, ref: nat, locked: set<Position>, it: OwedItem)
    ensures it in LinesOf(a, ps, s, kind, ref, locked)
      <==> exists k :: 0 <= k < |ps| && LineOf(a, ps[k], s, kind, ref, locked) == Some(it)
  {
    hide LineOf;
    if ps != [] {
      var last := |ps| - 1;
      InLinesOf(a, ps[..last], s, kind, ref, locked, it);
      assert ps == ps[..last] + [ps[last]];
      assert forall k :: 0 <= k < last ==> ps[..last][k] == ps[k];
    }
  }

  /** Locking more positions only removes lines, and exactly those at the added positions. */
  lemma MoreLocksFilterLine(
    a: Terms, per: ElapsedPeriod, s: Settlement, kind: Kind, ref: nat, locked: set<Position>, more: set<Position>)
    requires locked <= more
    ensures var line := LineOf(a, per, s, kind, ref, locked);
      LineOf(a, per, s, kind, ref, more) == if line.Some? && line.value.position in more then None else line
    ensures var line := LineOf(a, per, s, kind, ref, locked);
      line.Some? ==> line.value.amount > 0 && line.value.position.kind == kind && line.value.position.ref == ref
                     && line.value.position !in locked
  {
    hide PaidFor, PeriodKey, PeriodKeyEnd;
  }

  predicate FreshLines(lines: seq<OwedItem>, locked: set<Position>) {
    forall it :: it in lines ==> it.amount > 0 && it.position !in locked
  }

  lemma {:induction false} SourceLinesFresh(ss: seq<Source>, asOf: nat, locked: set<Position>)
    ensures FreshLines(SourceLines(ss, asOf, locked), locked)
    ensures forall it :: it in SourceLines(ss, asOf, locked) ==>
      exists k :: 0 <= k < |ss| && ss[k].kind == it.position.kind && ss[k].ref == it.position.ref
  {
    hide Elapsed, LinesOf;
    if ss != [] {
      var last := |ss| - 1;
      var s := ss[last];
      SourceLinesFresh(ss[..last], asOf, locked);
      var ps := Elapsed(s.terms, asOf);
      forall it | it in LinesOf(s.terms, ps, s.settlement, s.kind, s.ref, locked)
        ensures it.amount > 0 && it.position !in locked && it.position.kind == s.kind && it.position.ref == s.ref
      {
        InLinesOf(s.terms, ps, s.settlement, s.kind, s.ref, locked, it);
        var k :| 0 <= k < |ps| && LineOf(s.terms, ps[k], s.settlement, s.kind, s.ref, locked) == Some(it);
        MoreLocksFilterLine(s.terms, ps[k], s.settlement, s.kind, s.ref, locked, locked);
      }
    }
  }

  lemma {:induction false} ChargeLinesFresh(cs: seq<Charge>, bound: bool, locked: set<Position>)
    ensures FreshLines(ChargeLines(cs, bound, locked), locked)
    ensures forall it :: it in ChargeLines(cs, bound, locked) ==>
      exists k :: 0 <= k < |cs| && cs[k].bound == bound && it.position == Position(OneOffCharge, cs[k].id, "")
        && it.amount == ChargeTotal(cs[k].amount, cs[k].quantity)
  {
    hide ChargeTotal;
    if cs != [] {
      ChargeLinesFresh(cs[..|cs| - 1], bound, locked);
    }
  }

  /** No line repeats an invoiced position, and no line is free or negative. */
  lemma AllLinesFresh(b: Billable, asOf: nat, locked: set<Position>)
    ensures FreshLines(AllLines(b, asOf, locked), locked)
  {
    ChargeLinesFresh(b.charges, false, locked);
    ChargeLinesFresh(b.charges, true, locked);
    SourceLinesFresh(VehicleSources(b.vehicles), asOf, locked);
    SourceLinesFresh(b.agreements, asOf, locked);
    SourceLinesFresh(b.recurring, asOf, locked);
    hide ChargeLines, SourceLines, VehicleSources;
  }

  // ---------- the second run ----------

  lemma {:induction false} SourceLinesGone(ss: seq<Source>, asOf: nat, locked: set<Position>, more: set<Position>)
    requires locked <= more && Positions(SourceLines(ss, asOf, locked)) <= more
    ensures SourceLines(ss, asOf, more) == []
  {
    hide Elapsed, LinesOf;
    if ss != [] {
      var last := |ss| - 1;
      var s := ss[last];
      var before := SourceLines(ss[..last], asOf, locked);
      var ps := Elapsed(s.terms, asOf);
      var here := LinesOf(s.terms, ps, s.settlement, s.kind, s.ref, locked);
      PositionsOfParts(before, here);
      SourceLinesGone(ss[..last], asOf, locked, more);
      LinesGone(s.terms, ps, s.settlement, s.kind, s.ref, locked, more);
    }
  }

  lemma PositionsOfParts(a: seq<OwedItem>, b: seq<OwedItem>)
    ensures Positions(a + b) == Positions(a) + Positions(b)
  {
    forall p | p in Positions(a) + Positions(b) ensures p in Positions(a + b) {
      if p in Positions(a) {
        var k :| 0 <= k < |a| && a[k].position == p;
        assert (a + b)[k].position == p;
      } else {
        var k :| 0 <= k < |b| && b[k].position == p;
        assert (a + b)[|a| + k].position == p;
      }
    }
  }

  lemma {:induction false} LinesGone(
    a: Terms, ps: seq<ElapsedPeriod>, s: Settlement, kind: Kind, ref: nat, locked: set<Position>, more: set<Position>)
    requires locked <= more && Positions(LinesOf(a, ps, s, kind, ref, locked)) <= more
    ensures LinesOf(a, ps, s, kind, ref, more) == []
  {
    hide LineOf;
    if ps != [] {
      var last := |ps| - 1;
      var line := LineOf(a, ps[last], s, kind, ref, locked);
      var here := match line case None => [] case Some(it) => [it];
      PositionsOfParts(LinesOf(a, ps[..last], s, kind, ref, locked), here);
      LinesGone(a, ps[..last], s, kind, ref, locked, more);
      MoreLocksFilterLine(a, ps[last], s, kind, ref, locked, more);
      if line.Some? { assert here[0].position in Positions(here); }
    }
  }

  lemma {:induction false} ChargeLinesGone(cs: seq<Charge>, bound: bool, locked: set<Position>, more: set<Position>)
    requires locked <= more && Positions(ChargeLines(cs, bound, locked)) <= more
    ensures ChargeLines(cs, bound, more) == []
  {
    hide ChargeTotal;
    if cs != [] {
      var last := |cs| - 1;
      var line := ChargeLine(cs[last], bound, locked);
      var here := match line case None => [] case Some(it) => [it];
      PositionsOfParts(ChargeLines(cs[..last], bound, locked), here);
      ChargeLinesGone(cs[..last], bound, locked, more);
      if line.Some? { assert here[0].position in Positions(here); }
    }
  }

  /** Once an invoice holds the positions of its lines, the same moment has nothing left to bill. */
  lemma SecondInvoiceFindsNothing(b: Billable, asOf: nat, locked: set<Position>)
    ensures AllLines(b, asOf, locked + Positions(AllLines(b, asOf, locked))) == []
  {
    var c0, c1 := ChargeLines(b.charges, false, locked), ChargeLines(b.charges, true, locked);
    var vs := VehicleSources(b.vehicles);
    var v, f, r := SourceLines(vs, asOf, locked), SourceLines(b.agreements, asOf, locked), SourceLines(b.recurring, asOf, locked);
    var more := locked + Positions(AllLines(b, asOf, locked));
    PositionsOfParts(c0, v);
    PositionsOfParts(c0 + v, c1);
    PositionsOfParts(c0 + v + c1, f);
    PositionsOfParts(c0 + v + c1 + f, r);
    ChargeLinesGone(b.charges, false, locked, more);
    ChargeLinesGone(b.charges, true, locked, more);
    SourceLinesGone(vs, asOf, locked, more);
    SourceLinesGone(b.agreements, asOf, locked, more);
    SourceLinesGone(b.recurring, asOf, locked, more);
  }

  // ---------- no position twice on one invoice ----------

  predicate DistinctPositions(lines: seq<OwedItem>) {
    forall i, j :: 0 <= i < j < |lines| ==> lines[i].position != lines[j].position
  }

  predicate DistinctSources(ss: seq<Source>, kind: Kind) {
    && (forall k :: 0 <= k < |ss| ==> ss[k].kind == kind)
    && (forall i, j :: 0 <= i < j < |ss| ==> ss[i].ref != ss[j].ref)
  }

  /** Row ids are unique per table, and the clock stays within four-digit years. */
  predicate WellFormed(b: Billable, asOf: nat) {
    && (forall i, j :: 0 <= i < j < |b.vehicles| ==> b.vehicles[i].id != b.vehicles[j].id)
    && DistinctSources(b.agreements, Agreement)
    && DistinctSources(b.recurring, Recurring)
    && (forall i, j :: 0 <= i < j < |b.charges| ==> b.charges[i].id != b.charges[j].id)
    && (forall p :: YearOf(p, PeriodOf(p, asOf)) <= MAX_YEAR)
  }

  lemma {:induction false} SlicesAdvance(p: BillingPeriod, from: nat, to: nat, i: nat, j: nat)
    requires i < j < |SubPeriods(p, from, to)|
    ensures SubPeriods(p, from, to)[i].index < SubPeriods(p, from, to)[j].index
    decreases j
  {
    hide PeriodStart, PeriodOf;
    var k := PeriodOf(p, from);
    var e := Min(to, PeriodStart(p, k + 1));
    assert SubPeriods(p, e, to)[j - 1] == SubPeriods(p, from, to)[j];
    if i > 0 {
      SlicesAdvance(p, e, to, i - 1, j - 1);
    } else {
      SubPeriodsNonEmpty(p, e, to, j - 1);
      PeriodOfStart(p, k + 1);
      PeriodOfMonotone(p, e, SubPeriods(p, from, to)[j].from);
    }
  }

  lemma ElapsedKeysDiffer(a: Terms, asOf: nat, i: nat, j: nat)
    requires i < j < |Elapsed(a, asOf)| && KeysParse(a, asOf)
    ensures PeriodKey(a.period, Elapsed(a, asOf)[i].index) != PeriodKey(a.period, Elapsed(a, asOf)[j].index)
  {
    hide PeriodStart, PeriodOf, PeriodKey, SliceCents;
    var w := WindowEnd(a, asOf + 1);
    SlicesAdvance(a.period, a.start, w, i, j);
    SubPeriodsNonEmpty(a.period, a.start, w, j);
    var x, y := Elapsed(a, asOf)[i].index, Elapsed(a, asOf)[j].index;
    PeriodOfMonotone(a.period, SubPeriods(a.period, a.start, w)[j].from, asOf);
    if PeriodKey(a.period, x) == PeriodKey(a.period, y) {
      KeyInjective(a.period, x, y);
    }
  }

  lemma LinePosition(a: Terms, per: ElapsedPeriod, s: Settlement, kind: Kind, ref: nat, locked: set<Position>)
    ensures var line := LineOf(a, per, s, kind, ref, locked);
      line.Some? ==> line.value.position == Position(kind, ref, PeriodKey(a.period, per.index))
  {
    hide PaidFor, PeriodKey, PeriodKeyEnd;
  }

  lemma {:induction false} LinesDistinct(
    a: Terms, asOf: nat, n: nat, s: Settlement, kind: Kind, ref: nat, locked: set<Position>)
    requires n <= |Elapsed(a, asOf)| && KeysParse(a, asOf)
    ensures DistinctPositions(LinesOf(a, Elapsed(a, asOf)[..n], s, kind, ref, locked))
  {
    hide LineOf, PaidFor, PeriodKey, Elapsed, PeriodOf;
    if n > 0 {
      var ps := Elapsed(a, asOf);
      LinesDistinct(a, asOf, n - 1, s, kind, ref, locked);
      assert ps[..n][..n - 1] == ps[..n - 1];
      var before := LinesOf(a, ps[..n - 1], s, kind, ref, locked);
      var line := LineOf(a, ps[n - 1], s, kind, ref, locked);
      forall j | 0 <= j < |before| && line.Some? ensures before[j].position != line.value.position {
        InLinesOf(a, ps[..n - 1], s, kind, ref, locked, before[j]);
        var k :| 0 <= k < n - 1 && LineOf(a, ps[k], s, kind, ref, locked) == Some(before[j]);
        ElapsedKeysDiffer(a, asOf, k, n - 1);
        LinePosition(a, ps[k], s, kind, ref, locked);
        LinePosition(a, ps[n - 1], s, kind, ref, locked);
      }
    }
  }

  lemma DistinctConcat(a: seq<OwedItem>, b: seq<OwedItem>)
    requires DistinctPositions(a) && DistinctPositions(b)
    requires forall x, y :: x in a && y in b ==> x.position != y.position
    ensures DistinctPositions(a + b)
  {
    forall i, j | 0 <= i < j < |a + b| ensures (a + b)[i].position != (a + b)[j].position {
      if i < |a| <= j { assert (a + b)[i] in a && (a + b)[j] in b; }
    }
  }

  lemma {:induction false} SourceLinesDistinct(ss: seq<Source>, kind: Kind, asOf: nat, locked: set<Position>)
    requires DistinctSources(ss, kind)
    requires forall p :: YearOf(p, PeriodOf(p, asOf)) <= MAX_YEAR
    ensures DistinctPositions(SourceLines(ss, asOf, locked))
  {
    hide Elapsed, LinesOf, PeriodOf;
    if ss != [] {
      var last := |ss| - 1;
      var s := ss[last];
      SourceLinesDistinct(ss[..last], kind, asOf, locked);
      var ps := Elapsed(s.terms, asOf);
      LinesDistinct(s.terms, asOf, |ps|, s.settlement, s.kind, s.ref, locked);
      assert ps[..|ps|] == ps;
      SourceLinesFresh(ss[..last], asOf, locked);
      OneSourceLines(s, asOf, locked);
      DistinctConcat(SourceLines(ss[..last], asOf, locked), LinesOf(s.terms, ps, s.settlement, s.kind, s.ref, locked));
    }
  }

  lemma OneSourceLines(s: Source, asOf: nat, locked: set<Position>)
    ensures forall it :: it in LinesOf(s.terms, Elapsed(s.terms, asOf), s.settlement, s.kind, s.ref, locked) ==>
      it.position.kind == s.kind && it.position.ref == s.ref
  {
    hide Elapsed, LinesOf;
    SourceLinesFresh([s], asOf, locked);
    assert SourceLines([], asOf, locked) == [];
    assert SourceLines([s], asOf, locked)
        == [] + LinesOf(s.terms, Elapsed(s.terms, asOf), s.settlement, s.kind, s.ref, locked) by {
      assert [s][..0] == [];
    }
  }

  lemma {:induction false} ChargeLinesDistinct(cs: seq<Charge>, bound: bool, locked: set<Position>)
    requires forall i, j :: 0 <= i < j < |cs| ==> cs[i].id != cs[j].id
    ensures DistinctPositions(ChargeLines(cs, bound, locked))
  {
    hide ChargeTotal;
    if cs != [] {
      var last := |cs| - 1;
      ChargeLinesDistinct(cs[..last], bound, locked);
      ChargeLinesFresh(cs[..last], bound, locked);
      var line := ChargeLine(cs[last], bound, locked);
      var here := match line case None => [] case Some(it) => [it];
      DistinctConcat(ChargeLines(cs[..last], bound, locked), here);
    }
  }

  lemma {:induction false} VehicleSourcesDistinct(vs: seq<Vehicle>)
    requires forall i, j :: 0 <= i < j < |vs| ==> vs[i].id != vs[j].id
    ensures DistinctSources(VehicleSources(vs), VehicleRent)
    ensures forall s :: s in VehicleSources(vs) ==> exists k :: 0 <= k < |vs| && vs[k].id == s.ref
  {
    if vs != [] {
      VehicleSourcesDistinct(vs[..|vs| - 1]);
      var before := VehicleSources(vs[..|vs| - 1]);
      forall k | 0 <= k < |before| ensures before[k].ref != vs[|vs| - 1].id {
        assert before[k] in before;
      }
    }
  }

  /** One invoice never bills the same position twice, so its lines can all be locked. */
  lemma AllLinesDistinct(b: Billable, asOf: nat, locked: set<Position>)
    requires WellFormed(b, asOf)
    ensures DistinctPositions(AllLines(b, asOf, locked))
  {
    hide ChargeLines, SourceLines, VehicleSources, PeriodOf;
    var c0, c1 := ChargeLines(b.charges, false, locked), ChargeLines(b.charges, true, locked);
    var vs := VehicleSources(b.vehicles);
    var v, f, r := SourceLines(vs, asOf, locked), SourceLines(b.agreements, asOf, locked), SourceLines(b.recurring, asOf, locked);
    ChargeLinesDistinct(b.charges, false, locked);
    ChargeLinesDistinct(b.charges, true, locked);
    ChargeLinesFresh(b.charges, false, locked);
    ChargeLinesFresh(b.charges, true, locked);
    VehicleSourcesDistinct(b.vehicles);
    SourceLinesDistinct(vs, VehicleRent, asOf, locked);
    SourceLinesDistinct(b.agreements, Agreement, asOf, locked);
    SourceLinesDistinct(b.recurring, Recurring, asOf, locked);
    SourceLinesFresh(vs, asOf, locked);
    SourceLinesFresh(b.agreements, asOf, locked);
    SourceLinesFresh(b.recurring, asOf, locked);
    DistinctConcat(c0, v);
    DistinctConcat(c0 + v, c1);
    DistinctConcat(c0 + v + c1, f);
    DistinctConcat(c0 + v + c1 + f, r);
  }
}
