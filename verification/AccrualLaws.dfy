/**
 What a slice costs, said on the terms' own fields: paused days are free, a stretch without a cut
 costs its share of the price in force, and a slice falls apart at every cut. Rounding is to the
 nearest cent. These four together leave no cost open.
 */
module AccrualLaws {
  import opened Calendar
  import opened PeriodKeys
  import opened Accrual

  // ---------- rounding ----------

  /** A share of a price is the nearest cent, halves upwards. */
  lemma FractionIsNearest(cents: nat, num: nat, den: nat)
    requires den > 0
    ensures var r := FractionCents(cents, num, den);
      2 * (cents * num) - den < 2 * (den * r) <= 2 * (cents * num) + den
  {
    var n := cents * num;
    var r := RoundDiv(n, den);
    assert 2 * n + den == r * (2 * den) + (2 * n + den) % (2 * den);
    assert r * (2 * den) == 2 * (den * r);
  }

  // ---------- pauses and prices ----------

  predicate InPause(a: Terms, day: nat) {
    exists i :: 0 <= i < |a.pauses| && a.pauses[i].from <= day <= a.pauses[i].until
  }

  /** A change that counts on the day: dated no later, and not before the calendar begins. */
  predicate Dated(a: Terms, day: nat, i: nat)
    requires i < |a.rateChanges|
  {
    ZERO_DAY <= a.rateChanges[i].from <= day
  }

  /** The price on a day: of the latest change dated by then, the last one listed on a tie, or the base price. */
  ghost predicate PriceOn(a: Terms, day: nat, price: nat) {
    || (price == a.amount && forall i :: 0 <= i < |a.rateChanges| ==> !Dated(a, day, i))
    || exists i :: 0 <= i < |a.rateChanges| && Dated(a, day, i) && price == a.rateChanges[i].amount
         && forall j :: 0 <= j < |a.rateChanges| && Dated(a, day, j) ==>
              a.rateChanges[j].from < a.rateChanges[i].from || (a.rateChanges[j].from == a.rateChanges[i].from && j <= i)
  }

  lemma RateIsPrice(a: Terms, day: nat)
    ensures PriceOn(a, day, RateAt(a, day))
  {
    var n := |a.rateChanges|;
    RateIsLatestChange(a, day, n);
    var (amount, best) := RateUpTo(a, day, n);
    if amount == a.amount && forall j :: 0 <= j < n ==> !(ZERO_DAY <= a.rateChanges[j].from <= day) {
    } else {
      var i :| 0 <= i < n && a.rateChanges[i] == RateChange(best, amount) && best <= day
               && forall j :: 0 <= j < n && ZERO_DAY <= a.rateChanges[j].from <= day
                    ==> a.rateChanges[j].from <= best && (j > i ==> a.rateChanges[j].from < best);
      assert Dated(a, day, i);
    }
  }

  /** There is only one such price. */
  lemma PriceIsUnique(a: Terms, day: nat, x: nat, y: nat)
    requires PriceOn(a, day, x) && PriceOn(a, day, y)
    ensures x == y
  {
  }

  // ---------- cuts ----------

  /** A day on which a price change, a pause or the time after a pause begins. */
  predicate CutOn(a: Terms, day: nat) {
    || (exists i :: 0 <= i < |a.rateChanges| && a.rateChanges[i].from == day)
    || (exists i :: 0 <= i < |a.pauses| && (a.pauses[i].from == day || a.pauses[i].until + 1 == day))
  }

  lemma CutsAreCuts(a: Terms, day: nat)
    ensures day in Boundaries(a) <==> CutOn(a, day)
  {
    var bs, n, m := Boundaries(a), |a.rateChanges|, |a.pauses|;
    if CutOn(a, day) {
      if i :| 0 <= i < n && a.rateChanges[i].from == day {
        assert bs[i] == day;
      } else {
        var i :| 0 <= i < m && (a.pauses[i].from == day || a.pauses[i].until + 1 == day);
        assert bs[n + i] == a.pauses[i].from && bs[n + m + i] == a.pauses[i].until + 1;
      }
    }
  }

  /** Nothing begins strictly inside [s, e). */
  predicate Quiet(a: Terms, s: nat, e: nat) {
    forall day :: s < day < e ==> !CutOn(a, day)
  }

  /** A stretch in which nothing changes costs nothing if it is paused, and else its share of the price in force. */
  lemma QuietStretch(a: Terms, s: nat, e: nat, len: nat, price: nat)
    requires s < e && Quiet(a, s, e) && PriceOn(a, s, price)
    ensures SliceCents(a, s, e, len) == if InPause(a, s) then 0 else FractionCents(price, e - s, len)
  {
    RateIsPrice(a, s);
    PriceIsUnique(a, s, price, RateAt(a, s));
    forall day | s < day < e ensures day !in Boundaries(a) { CutsAreCuts(a, day); }
    hide Boundaries, RateAt, FractionCents, CutOn, PriceOn;
    NextCutUnique(Boundaries(a), s, e, e);
    assert SliceCents(a, e, e, len) == 0;
    assert PausedAt(a, s) <==> InPause(a, s);
  }

  /** Unpaused days without a price change among them cost their share of one price. */
  lemma UnpausedStretch(a: Terms, s: nat, e: nat, len: nat, price: nat)
    requires s < e && PriceOn(a, s, price) && forall day :: s <= day < e ==> !InPause(a, day)
    requires forall i :: 0 <= i < |a.rateChanges| ==> !(s < a.rateChanges[i].from < e)
    requires forall i :: 0 <= i < |a.pauses| ==> a.pauses[i].from <= a.pauses[i].until
    ensures SliceCents(a, s, e, len) == FractionCents(price, e - s, len)
  {
    forall day | s < day < e ensures !CutOn(a, day) {
      if i :| 0 <= i < |a.pauses| && (a.pauses[i].from == day || a.pauses[i].until + 1 == day) {
        assert InPause(a, if a.pauses[i].from == day then day else day - 1);
      }
    }
    QuietStretch(a, s, e, len, price);
  }

  /** A slice is the sum of its parts at any cut, so rounding happens between cuts and nowhere else. */
  lemma {:induction false} SliceSplits(a: Terms, s: nat, b: nat, e: nat, len: nat)
    requires s <= b <= e && (CutOn(a, b) || b == s || b == e)
    ensures SliceCents(a, s, e, len) == SliceCents(a, s, b, len) + SliceCents(a, b, e, len)
    decreases e - s
  {
    CutsAreCuts(a, b);
    hide PieceCents, Boundaries, CutOn;
    if s < b < e {
      var c := NextCut(Boundaries(a), s, e);
      NextCutUnique(Boundaries(a), s, b, c);
      SliceSplits(a, c, b, e, len);
    }
  }

  /** Days that all lie in pauses are free. */
  lemma {:induction false} PausedDaysAreFree(a: Terms, s: nat, e: nat, len: nat)
    requires forall day :: s <= day < e ==> InPause(a, day)
    ensures SliceCents(a, s, e, len) == 0
    decreases if s < e then e - s else 0
  {
    if s < e {
      assert InPause(a, s) && PausedAt(a, s);
      hide Boundaries, InPause;
      PausedDaysAreFree(a, NextCut(Boundaries(a), s, e), e, len);
    }
  }

  /** A pause inside a slice splits it into the part before and the part after, and is itself free. */
  lemma PauseIsCutOut(a: Terms, s: nat, e: nat, len: nat, i: nat)
    requires i < |a.pauses| && s <= a.pauses[i].from <= a.pauses[i].until < e
    ensures SliceCents(a, s, e, len)
         == SliceCents(a, s, a.pauses[i].from, len) + SliceCents(a, a.pauses[i].until + 1, e, len)
  {
    var from, after := a.pauses[i].from, a.pauses[i].until + 1;
    SliceSplits(a, s, from, e, len);
    SliceSplits(a, from, after, e, len);
    PausedDaysAreFree(a, from, after, len);
  }

  /** A price change inside a slice splits it there. */
  lemma PriceChangeSplits(a: Terms, s: nat, e: nat, len: nat, i: nat)
    requires i < |a.rateChanges| && s <= a.rateChanges[i].from <= e
    ensures SliceCents(a, s, e, len)
         == SliceCents(a, s, a.rateChanges[i].from, len) + SliceCents(a, a.rateChanges[i].from, e, len)
  {
    SliceSplits(a, s, a.rateChanges[i].from, e, len);
  }

  // ---------- whole ranges ----------

  lemma {:induction false} PausedWalkIsFree(a: Terms, s: nat, e: nat)
    requires forall day :: s <= day < e ==> InPause(a, day)
    ensures WalkCost(a, s, e) == 0
    decreases if s < e then e - s else 0
  {
    hide SliceCents, PeriodStart, PeriodLength, InPause;
    if s < e {
      var i := PeriodOf(a.period, s);
      var c := Min(e, PeriodStart(a.period, i + 1));
      PausedDaysAreFree(a, s, c, PeriodLength(a.period, i));
      PausedWalkIsFree(a, c, e);
    }
  }

  /** A range whose days all lie in pauses costs nothing. */
  lemma PausedRangeIsFree(a: Terms, from: nat, to: nat)
    requires forall day :: from <= day < to ==> InPause(a, day)
    ensures CostInRange(a, from, to) == 0
  {
    hide InPause;
    PausedWalkIsFree(a, Max(a.start, from), WindowEnd(a, to));
  }

  /** Outside the accrual's own days there is no cost. */
  lemma OutsideItsDaysIsFree(a: Terms, from: nat, to: nat)
    requires to <= from || to <= a.start || (a.end.Some? && a.end.value < from)
    ensures CostInRange(a, from, to) == 0
  {
  }

  /** Only the days of a range that the accrual has count. */
  lemma RangeIsClipped(a: Terms, from: nat, to: nat)
    ensures var s := if from < a.start then a.start else from;
      var e := if a.end.Some? && a.end.value + 1 < to then a.end.value + 1 else to;
      CostInRange(a, from, to) == CostInRange(a, s, e)
  {
    hide WalkCost;
  }

  /** The days of a range inside one sub-period cost what their slice costs. */
  lemma RangeInOnePeriod(a: Terms, from: nat, to: nat, i: nat)
    requires PeriodStart(a.period, i) <= from < to <= PeriodStart(a.period, i + 1)
    requires a.start <= from && (a.end.Some? ==> to <= a.end.value + 1)
    ensures CostInRange(a, from, to) == SliceCents(a, from, to, PeriodLength(a.period, i))
  {
    PeriodOfUnique(a.period, from, i);
    hide SliceCents, PeriodStart, PeriodLength, PeriodOf;
    assert WalkCost(a, to, to) == 0;
  }

  /** Costs of ranges that meet at the start of a sub-period add up. */
  lemma RangesAddUp(a: Terms, from: nat, to: nat, i: nat)
    requires from <= PeriodStart(a.period, i) <= to
    ensures var b := PeriodStart(a.period, i);
      CostInRange(a, from, to) == CostInRange(a, from, b) + CostInRange(a, b, to)
  {
    var b := PeriodStart(a.period, i);
    var s, e := Max(a.start, from), WindowEnd(a, to);
    hide PeriodStart;
    if s <= b <= e {
      WalkCostSplits(a, s, b, e, i);
    }
  }
}
