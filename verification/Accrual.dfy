/**
 What a rental costs over a range of days: a price per calendar month or year, prorated
 over the calendar, with dated price changes and pauses. Money is in integer cents and
 days are day numbers; every range is half-open.
 */
module Accrual {
  import opened Calendar
  import opened PeriodKeys

  /** From day `from` on the price is `amount`. */
  datatype RateChange = RateChange(from: nat, amount: nat)

  /** No cost accrues from `from` through `until`, inclusive. */
  datatype Pause = Pause(from: nat, until: nat)

  /** A periodic accrual. The end day is inclusive; None is open-ended. */
  datatype Terms = Terms(
    amount: nat,
    period: BillingPeriod,
    start: nat,
    end: Option<nat>,
    rateChanges: seq<RateChange>,
    pauses: seq<Pause>)

  function Min(a: int, b: int): int { if a <= b then a else b }

  function Max(a: int, b: int): int { if a <= b then b else a }

  /** n / d rounded to the nearest integer, halves away from zero. */
  function RoundDiv(n: int, d: nat): int
    requires d > 0
  {
    if n >= 0 then (2 * n + d) / (2 * d) else -((2 * -n + d) / (2 * d))
  }

  lemma RoundDivFloor(n: nat, d: nat, q: int)
    requires d > 0
    ensures q <= RoundDiv(n, d) <==> 2 * q * d <= 2 * n + d
  {
    var r := RoundDiv(n, d);
    assert (2 * n + d) == r * (2 * d) + (2 * n + d) % (2 * d);
    if q <= r {
      assert q * (2 * d) <= r * (2 * d);
    } else {
      assert (r + 1) * (2 * d) <= q * (2 * d);
    }
  }

  lemma RoundDivMonotone(m: nat, n: nat, d: nat)
    requires d > 0 && m <= n
    ensures 0 <= RoundDiv(m, d) <= RoundDiv(n, d)
  {
    RoundDivFloor(m, d, RoundDiv(m, d));
    RoundDivFloor(n, d, RoundDiv(m, d));
    RoundDivFloor(m, d, 0);
  }

  /** The share of `cents` for `num` of `den` days. */
  function FractionCents(cents: nat, num: int, den: int): int {
    if den <= 0 then 0 else RoundDiv(cents * num, den)
  }

  lemma FractionMonotone(cents: nat, m: nat, n: nat, den: int)
    requires m <= n
    ensures 0 <= FractionCents(cents, m, den) <= FractionCents(cents, n, den)
  {
    if den > 0 {
      assert cents * m <= cents * n;
      RoundDivMonotone(cents * m, cents * n, den);
    }
  }

  /** A whole month or year costs the configured price to the cent. */
  lemma WholePeriodIsExact(cents: nat, den: nat)
    requires den > 0
    ensures FractionCents(cents, den, den) == cents
  {
    RoundDivFloor(cents * den, den, cents);
    RoundDivFloor(cents * den, den, cents + 1);
  }

  // ---------- the price and the pauses on a day ----------

  /** The latest change not after `t` among the first `k` decides; the later entry wins a tie. */
  function RateUpTo(a: Terms, t: nat, k: nat): (r: (nat, nat))
    requires k <= |a.rateChanges|
  {
    if k == 0 then (a.amount, ZERO_DAY)
    else
      var (amount, best) := RateUpTo(a, t, k - 1);
      var rc := a.rateChanges[k - 1];
      if rc.from <= t && rc.from >= best then (rc.amount, rc.from) else (amount, best)
  }

  function RateAt(a: Terms, t: nat): nat {
    RateUpTo(a, t, |a.rateChanges|).0
  }

  method ComputeRateAt(a: Terms, t: nat) returns (amount: nat)
    ensures amount == RateAt(a, t)
  {
    var best := ZERO_DAY;
    amount := a.amount;
    for i := 0 to |a.rateChanges|
      invariant (amount, best) == RateUpTo(a, t, i)
    {
      var rc := a.rateChanges[i];
      if rc.from <= t && rc.from >= best {
        amount, best := rc.amount, rc.from;
      }
    }
  }

  /** The price on a day is the one of the latest change in force, or the base price. */
  lemma {:induction false} RateIsLatestChange(a: Terms, t: nat, k: nat)
    requires k <= |a.rateChanges|
    ensures var (amount, best) := RateUpTo(a, t, k);
      || (amount == a.amount && best == ZERO_DAY
          && forall j :: 0 <= j < k ==> !(ZERO_DAY <= a.rateChanges[j].from <= t))
      || exists i :: 0 <= i < k && a.rateChanges[i] == RateChange(best, amount) && best <= t
           && forall j :: 0 <= j < k && ZERO_DAY <= a.rateChanges[j].from <= t
                ==> a.rateChanges[j].from <= best && (j > i ==> a.rateChanges[j].from < best)
    ensures RateUpTo(a, t, k).1 >= ZERO_DAY
  {
    if k > 0 {
      RateIsLatestChange(a, t, k - 1);
    }
  }

  predicate PausedAt(a: Terms, t: nat) {
    exists i :: 0 <= i < |a.pauses| && a.pauses[i].from <= t < a.pauses[i].until + 1
  }

  /** Days on which the price or the pause state can change. */
  function Boundaries(a: Terms): seq<nat> {
    seq(|a.rateChanges|, i requires 0 <= i < |a.rateChanges| => a.rateChanges[i].from)
    + seq(|a.pauses|, i requires 0 <= i < |a.pauses| => a.pauses[i].from)
    + seq(|a.pauses|, i requires 0 <= i < |a.pauses| => a.pauses[i].until + 1)
  }

  /** The first boundary strictly inside (s, e), or e. */
  function NextCut(bs: seq<nat>, s: nat, e: nat): (c: nat)
    requires s < e
    ensures s < c <= e
    ensures c == e || c in bs
    ensures forall b :: b in bs && s < b < e ==> c <= b
  {
    if bs == [] then e
    else
      var c := NextCut(bs[1..], s, e);
      assert forall b :: b in bs ==> b == bs[0] || b in bs[1..];
      if s < bs[0] < c then bs[0] else c
  }

  lemma NextCutUnique(bs: seq<nat>, s: nat, e: nat, c: nat)
    requires s < c <= e
    requires c == e || c in bs
    requires forall b :: b in bs && s < b < e ==> c <= b
    ensures NextCut(bs, s, e) == c
  {
  }

  /** What the days [s, c) inside one sub-period of `len` days cost at the price of day s. */
  function PieceCents(a: Terms, s: nat, c: nat, len: nat): int {
    if PausedAt(a, s) then 0 else FractionCents(RateAt(a, s), c - s, len)
  }

  /** The cost of [s, e) inside one sub-period of `len` days: cut at each boundary, round each piece. */
  function SliceCents(a: Terms, s: nat, e: nat, len: nat): int
    decreases if s < e then e - s else 0
  {
    if e <= s then 0
    else
      var c := NextCut(Boundaries(a), s, e);
      PieceCents(a, s, c, len) + SliceCents(a, c, e, len)
  }

  lemma PieceMonotone(a: Terms, s: nat, c: nat, d: nat, len: nat)
    requires s <= c <= d
    ensures 0 <= PieceCents(a, s, c, len) <= PieceCents(a, s, d, len)
  {
    FractionMonotone(RateAt(a, s), c - s, d - s, len);
  }

  /** A longer slice of one sub-period never costs less. */
  lemma {:induction false} SliceMonotone(a: Terms, s: nat, e: nat, f: nat, len: nat)
    requires e <= f
    ensures 0 <= SliceCents(a, s, e, len) <= SliceCents(a, s, f, len)
    decreases if s < f then f - s else 0
  {
    if s < f {
      var bs := Boundaries(a);
      var d := NextCut(bs, s, f);
      PieceMonotone(a, s, s, d, len);
      hide PieceCents, Boundaries;
      if s < e {
        var c := NextCut(bs, s, e);
        if d < e {
          NextCutUnique(bs, s, e, d);
          SliceMonotone(a, d, e, f, len);
        } else {
          assert c == e;
          PieceMonotone(a, s, c, d, len);
          SliceMonotone(a, d, d, f, len);
        }
      } else {
        SliceMonotone(a, d, d, f, len);
      }
    }
  }

  /** Without price changes and pauses a slice is one prorated fraction. */
  lemma PlainSlice(a: Terms, s: nat, e: nat, len: nat)
    requires a.rateChanges == [] && a.pauses == [] && s < e
    ensures SliceCents(a, s, e, len) == FractionCents(a.amount, e - s, len)
  {
    assert Boundaries(a) == [];
    assert SliceCents(a, e, e, len) == 0;
  }

  // ---------- the slice as the code computes it ----------

  predicate Sorted(s: seq<nat>) {
    forall i, j :: 0 <= i < j < |s| ==> s[i] <= s[j]
  }

  /** Ascending sort of the cut days. */
  method SortDays(days: seq<nat>) returns (sorted: seq<nat>)
    ensures Sorted(sorted)
    ensures forall d :: d in sorted <==> d in days
  {
    sorted := [];
    for i := 0 to |days|
      invariant Sorted(sorted)
      invariant forall d :: d in sorted <==> d in days[..i]
    {
      var k := 0;
      while k < |sorted| && sorted[k] <= days[i]
        invariant k <= |sorted|
        invariant forall j :: 0 <= j < k ==> sorted[j] <= days[i]
      {
        k := k + 1;
      }
      var next := sorted[..k] + [days[i]] + sorted[k..];
      forall d ensures d in next <==> d in days[..i + 1] {
        assert d in sorted <==> d in sorted[..k] || d in sorted[k..] by {
          assert sorted == sorted[..k] + sorted[k..];
        }
        assert days[..i + 1] == days[..i] + [days[i]];
      }
      sorted := next;
    }
    assert days[..|days|] == days;
  }

  method ComputeSliceCents(a: Terms, s: nat, e: nat, len: nat) returns (total: int)
    requires s < e
    ensures total == SliceCents(a, s, e, len)
  {
    if |a.rateChanges| == 0 && |a.pauses| == 0 {
      PlainSlice(a, s, e, len);
      return FractionCents(a.amount, e - s, len);
    }
    var cuts: seq<nat> := [s, e];
    for i := 0 to |a.rateChanges|
      invariant forall d :: d in cuts <==>
        (d == s || d == e || (s < d < e && exists j :: 0 <= j < i && a.rateChanges[j].from == d))
    {
      var d := a.rateChanges[i].from;
      if s < d < e { cuts := cuts + [d]; }
    }
    ghost var rates := cuts;
    for i := 0 to |a.pauses|
      invariant forall d :: d in cuts <==>
        (d in rates || (s < d < e && exists j :: 0 <= j < i && (a.pauses[j].from == d || a.pauses[j].until + 1 == d)))
    {
      var d := a.pauses[i].from;
      if s < d < e { cuts := cuts + [d]; }
      d := a.pauses[i].until + 1;
      if s < d < e { cuts := cuts + [d]; }
    }
    CutsAreBoundaries(a, s, e, rates, cuts);
    cuts := SortDays(cuts);
    total := WalkCuts(a, s, e, len, cuts);
  }

  lemma CutsAreBoundaries(a: Terms, s: nat, e: nat, rates: seq<nat>, cuts: seq<nat>)
    requires s < e
    requires forall d :: d in rates <==>
      (d == s || d == e || (s < d < e && exists j :: 0 <= j < |a.rateChanges| && a.rateChanges[j].from == d))
    requires forall d :: d in cuts <==>
      (d in rates
       || (s < d < e && exists j :: 0 <= j < |a.pauses| && (a.pauses[j].from == d || a.pauses[j].until + 1 == d)))
    ensures forall d :: d in cuts <==> (d == s || d == e || (s < d < e && d in Boundaries(a)))
  {
    var bs := Boundaries(a);
    var n, m := |a.rateChanges|, |a.pauses|;
    forall d ensures d in bs <==>
        ((exists j :: 0 <= j < n && a.rateChanges[j].from == d)
         || (exists j :: 0 <= j < m && (a.pauses[j].from == d || a.pauses[j].until + 1 == d)))
    {
      forall j | 0 <= j < n ensures a.rateChanges[j].from in bs { assert bs[j] == a.rateChanges[j].from; }
      forall j | 0 <= j < m ensures a.pauses[j].from in bs && a.pauses[j].until + 1 in bs {
        assert bs[n + j] == a.pauses[j].from;
        assert bs[n + m + j] == a.pauses[j].until + 1;
      }
    }
  }

  method WalkCuts(a: Terms, s: nat, e: nat, len: nat, cuts: seq<nat>) returns (total: int)
    requires s < e && Sorted(cuts)
    requires forall d :: d in cuts <==> (d == s || d == e || (s < d < e && d in Boundaries(a)))
    ensures total == SliceCents(a, s, e, len)
  {
    hide Boundaries, RateAt, PausedAt, FractionCents, SliceCents;
    assert s in cuts && e in cuts;
    assert cuts[0] == s && cuts[|cuts| - 1] == e by {
      assert cuts[0] in cuts && cuts[|cuts| - 1] in cuts;
    }
    ghost var goal := SliceCents(a, s, e, len);
    total := 0;
    for i := 0 to |cuts| - 1
      invariant total + SliceCents(a, cuts[i], e, len) == goal
    {
      var ps, pe := cuts[i], cuts[i + 1];
      assert pe in cuts && ps in cuts;
      if ps < pe {
        SliceStep(a, s, e, len, cuts, i);
        if !PausedAt(a, ps) {
          var rate := ComputeRateAt(a, ps);
          total := total + FractionCents(rate, pe - ps, len);
        }
      }
    }
    assert SliceCents(a, e, e, len) == 0 by { NoDaysCostNothing(a, e, len); }
  }

  lemma NoDaysCostNothing(a: Terms, e: nat, len: nat)
    ensures SliceCents(a, e, e, len) == 0
  {
  }

  lemma SliceStep(a: Terms, s: nat, e: nat, len: nat, cuts: seq<nat>, i: nat)
    requires s < e && Sorted(cuts) && i + 1 < |cuts| && cuts[i] < cuts[i + 1]
    requires forall d :: d in cuts <==> (d == s || d == e || (s < d < e && d in Boundaries(a)))
    ensures SliceCents(a, cuts[i], e, len)
         == PieceCents(a, cuts[i], cuts[i + 1], len) + SliceCents(a, cuts[i + 1], e, len)
  {
    hide PieceCents, Boundaries;
    NextCutIsNextDay(a, s, e, cuts, i);
  }

  lemma NextCutIsNextDay(a: Terms, s: nat, e: nat, cuts: seq<nat>, i: nat)
    requires s < e && Sorted(cuts) && i + 1 < |cuts| && cuts[i] < cuts[i + 1]
    requires forall d :: d in cuts <==> (d == s || d == e || (s < d < e && d in Boundaries(a)))
    ensures cuts[i] < e && NextCut(Boundaries(a), cuts[i], e) == cuts[i + 1]
  {
    var ps, pe := cuts[i], cuts[i + 1];
    assert ps in cuts && pe in cuts;
    forall b | b in Boundaries(a) && ps < b < e ensures pe <= b {
      assert b in cuts;
      var j :| 0 <= j < |cuts| && cuts[j] == b;
    }
    NextCutUnique(Boundaries(a), ps, e, pe);
  }

  // ---------- whole ranges ----------

  /** One calendar sub-period cut to the range walked. */
  datatype Slice = Slice(from: nat, to: nat, index: nat)

  /** The sub-periods [from, to) meets, oldest first. */
  function SubPeriods(p: BillingPeriod, from: nat, to: nat): seq<Slice>
    decreases if from < to then to - from else 0
  {
    if to <= from then []
    else
      var i := PeriodOf(p, from);
      var e := Min(to, PeriodStart(p, i + 1));
      [Slice(from, e, i)] + SubPeriods(p, e, to)
  }

  /** Where the walk stands before period `i`: everything before `done` is emitted. */
  predicate WalkAt(p: BillingPeriod, from: nat, to: nat, i: nat, done: nat) {
    if PeriodStart(p, i) < to
    then done == Max(from, PeriodStart(p, i)) && done < to && done < PeriodStart(p, i + 1)
    else done == to
  }

  lemma WalkNext(p: BillingPeriod, from: nat, to: nat, i: nat, done: nat)
    requires WalkAt(p, from, to, i, done) && PeriodStart(p, i) < to
    ensures PeriodStart(p, i) < PeriodStart(p, i + 1)
    ensures var e := Min(to, PeriodStart(p, i + 1));
      && done == Max(from, PeriodStart(p, i)) && done < e && WalkAt(p, from, to, i + 1, e)
      && SubPeriods(p, done, to) == [Slice(done, e, i)] + SubPeriods(p, e, to)
  {
    FirstSubPeriod(p, done, to, i);
    PeriodStartStep(p, i);
    PeriodStartStep(p, i + 1);
    hide PeriodStart, SubPeriods;
  }

  /** The calendar walk as the code performs it: whole periods emitted one by one, each clipped. */
  method WalkSubPeriods(p: BillingPeriod, from: nat, to: nat) returns (slices: seq<Slice>)
    ensures slices == SubPeriods(p, from, to)
  {
    hide PeriodStart, PeriodOf, WalkAt, SubPeriods;
    slices := [];
    WalkBegins(p, from, to);
    if to <= from { return; }
    var i := PeriodOf(p, from);
    ghost var done: nat := from;
    while PeriodStart(p, i) < to
      invariant WalkAt(p, from, to, i, done)
      invariant slices + SubPeriods(p, done, to) == SubPeriods(p, from, to)
      decreases if PeriodStart(p, i) < to then to - PeriodStart(p, i) else 0
    {
      WalkNext(p, from, to, i, done);
      var s, e := Max(from, PeriodStart(p, i)), Min(to, PeriodStart(p, i + 1));
      if s < e {
        slices := slices + [Slice(s, e, i)];
      }
      i := i + 1;
      done := e;
    }
    WalkEnds(p, from, to, i, done);
  }

  lemma WalkBegins(p: BillingPeriod, from: nat, to: nat)
    ensures if from < to then WalkAt(p, from, to, PeriodOf(p, from), from) else SubPeriods(p, from, to) == []
  {
    hide PeriodStart, PeriodOf;
  }

  lemma WalkEnds(p: BillingPeriod, from: nat, to: nat, i: nat, done: nat)
    requires WalkAt(p, from, to, i, done) && PeriodStart(p, i) >= to
    ensures SubPeriods(p, done, to) == []
  {
  }

  lemma FirstSubPeriod(p: BillingPeriod, s: nat, to: nat, i: nat)
    requires PeriodStart(p, i) <= s < PeriodStart(p, i + 1) && s < to
    ensures var e := Min(to, PeriodStart(p, i + 1));
      SubPeriods(p, s, to) == [Slice(s, e, i)] + SubPeriods(p, e, to)
  {
    PeriodOfUnique(p, s, i);
    hide PeriodStart, PeriodOf;
  }

  function WindowEnd(a: Terms, to: nat): nat {
    if a.end.Some? && a.end.value + 1 < to then a.end.value + 1 else to
  }

  /** Cost of [s, e) without regard to the accrual's own window, sub-period by sub-period. */
  function WalkCost(a: Terms, s: nat, e: nat): int
    decreases if s < e then e - s else 0
  {
    if e <= s then 0
    else
      var i := PeriodOf(a.period, s);
      var c := Min(e, PeriodStart(a.period, i + 1));
      SliceCents(a, s, c, PeriodLength(a.period, i)) + WalkCost(a, c, e)
  }

  /** The cost accrued on the days [from, to) inside the accrual's window. */
  function CostInRange(a: Terms, from: nat, to: nat): int {
    WalkCost(a, Max(a.start, from), WindowEnd(a, to))
  }

  method ComputeCostInRange(a: Terms, from: nat, to: nat) returns (total: int)
    ensures total == CostInRange(a, from, to)
  {
    hide PeriodStart, PeriodOf, PeriodLength, SliceCents;
    total := 0;
    var s, e := Max(a.start, from), WindowEnd(a, to);
    if e <= s { return; }
    var slices := WalkSubPeriods(a.period, s, e);
    ghost var done := s;
    for k := 0 to |slices|
      invariant s <= done && slices[k..] == SubPeriods(a.period, done, e)
      invariant total + WalkCost(a, done, e) == WalkCost(a, s, e)
    {
      var sl := slices[k];
      assert slices[k..] == [sl] + slices[k + 1..];
      var cents := ComputeSliceCents(a, sl.from, sl.to, PeriodLength(a.period, sl.index));
      total := total + cents;
      done := sl.to;
      assert slices[k + 1..] == SubPeriods(a.period, done, e);
    }
  }

  lemma {:induction false} WalkCostMonotone(a: Terms, s: nat, e: nat, f: nat)
    requires e <= f
    ensures 0 <= WalkCost(a, s, e) <= WalkCost(a, s, f)
    decreases if s < f then f - s else 0
  {
    hide SliceCents, PeriodStart, PeriodLength;
    if s < f {
      var i := PeriodOf(a.period, s);
      var len, next := PeriodLength(a.period, i), PeriodStart(a.period, i + 1);
      var c, d := Min(e, next), Min(f, next);
      SliceMonotone(a, s, d, d, len);
      if s < e {
        SliceMonotone(a, s, c, d, len);
        if c == d { WalkCostMonotone(a, c, e, f); } else { WalkCostMonotone(a, d, d, f); }
      } else {
        WalkCostMonotone(a, d, d, f);
      }
    }
  }

  /** Rounding happens per sub-period, so costs add up exactly at every sub-period start. */
  lemma {:induction false} WalkCostSplits(a: Terms, s: nat, b: nat, e: nat, i: nat)
    requires s <= b <= e && b == PeriodStart(a.period, i)
    ensures WalkCost(a, s, e) == WalkCost(a, s, b) + WalkCost(a, b, e)
    decreases b - s
  {
    hide SliceCents, PeriodLength;
    if s < b {
      var k := PeriodOf(a.period, s);
      if i < k + 1 { PeriodStartOrdered(a.period, i, k); }
      PeriodStartOrdered(a.period, k + 1, i);
      hide PeriodStart;
      var c := PeriodStart(a.period, k + 1);
      assert s < c <= b;
      WalkCostSplits(a, c, b, e, i);
    }
  }

  /** Cost accrued through a later day is never smaller, and never negative. */
  lemma CostMonotone(a: Terms, from: nat, e: nat, f: nat)
    requires e <= f
    ensures 0 <= CostInRange(a, from, e) <= CostInRange(a, from, f)
  {
    WalkCostMonotone(a, Max(a.start, from), WindowEnd(a, e), WindowEnd(a, f));
  }
}
