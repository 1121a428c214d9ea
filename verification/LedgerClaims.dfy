/**
 Documents and what they claim: an active invoice owns its positions and nobody else does,
 a billed charge is the charge that was billed, and document numbers run without gaps.
 */
module LedgerClaims {
  import opened Calendar
  import opened PeriodKeys
  import opened Accrual
  import opened OwedLines
  import opened InvoiceLines
  import opened LedgerState

  // ---------- invariants ----------

  predicate Owns(db: Db, i: nat, p: Position) {
    i < |db.invoices| && Active(db.invoices[i]) && p in Positions(db.invoices[i].lines)
  }

  /** The lock table is exactly the positions of the active invoices, each under its one owner. */
  predicate SourcesOk(db: Db) {
    && (forall p :: p in db.sources ==> Owns(db, db.sources[p], p))
    && (forall i :: 0 <= i < |db.invoices| && Active(db.invoices[i]) ==>
          DistinctPositions(db.invoices[i].lines)
          && forall p :: p in Positions(db.invoices[i].lines) ==> p in db.sources && db.sources[p] == i)
  }

  /** The charge row behind a line or an allocation, still at the amount it was booked with. */
  predicate Backed(charges: seq<ChargeRow>, id: nat, amount: int) {
    exists m :: 0 <= m < |charges| && charges[m].id == id && ChargeTotal(charges[m].amount, charges[m].quantity) == amount
  }

  predicate BackedLine(charges: seq<ChargeRow>, it: OwedItem) {
    it.position.kind.OneOffCharge? ==> it.position.period == "" && Backed(charges, it.position.ref, it.amount)
  }

  predicate ChargeIdsOk(db: Db) {
    && (forall m :: 0 <= m < |db.charges| ==> db.charges[m].id < db.nextCharge)
    && (forall m, n :: 0 <= m < n < |db.charges| ==> db.charges[m].id != db.charges[n].id)
  }

  predicate ChargesOk(db: Db) {
    && ChargeIdsOk(db)
    && (forall i, it :: 0 <= i < |db.invoices| && Active(db.invoices[i]) && it in db.invoices[i].lines ==>
          BackedLine(db.charges, it))
  }

  /** A charge is allocated at most once, at its amount, and never while an invoice holds it. */
  predicate AllocsOk(db: Db) {
    && (forall k, l :: 0 <= k < l < |db.allocs| ==> db.allocs[k].charge != db.allocs[l].charge)
    && (forall k :: 0 <= k < |db.allocs| ==>
          && Position(OneOffCharge, db.allocs[k].charge, "") !in db.sources
          && Backed(db.charges, db.allocs[k].charge, db.allocs[k].amount)
          && db.allocs[k].payment < |db.payments| && !db.payments[db.allocs[k].payment].reversed)
  }

  /** Numbers increase with the documents and stay below the next one; no text is used twice. */
  predicate NumbersOk(db: Db) {
    && (forall i :: 0 <= i < |db.invoices| ==> db.invoices[i].no < db.nextNo)
    && (forall i, j :: 0 <= i < j < |db.invoices| ==>
          db.invoices[i].no < db.invoices[j].no && db.invoices[i].number != db.invoices[j].number)
  }

  /** Storno documents and canceled invoices come in pairs of opposite content. */
  predicate Counters(invoices: seq<Invoice>, s: nat, i: nat)
    requires s < |invoices|
  {
    && i < s && invoices[s].cancels == Some(i) && !invoices[s].canceled
    && invoices[i].canceled && invoices[i].cancels.None?
    && invoices[s].person == invoices[i].person && invoices[s].total == -invoices[i].total
    && invoices[s].lines == Negated(invoices[i].lines)
  }

  predicate StornosOk(db: Db) {
    && (forall s :: 0 <= s < |db.invoices| && db.invoices[s].cancels.Some? ==>
          Counters(db.invoices, s, db.invoices[s].cancels.value))
    && (forall i :: 0 <= i < |db.invoices| && db.invoices[i].canceled ==>
          exists s :: i < s < |db.invoices| && db.invoices[s].cancels == Some(i))
    && (forall s, t :: 0 <= s < t < |db.invoices| && db.invoices[s].cancels.Some? ==>
          db.invoices[s].cancels != db.invoices[t].cancels)
  }

  predicate ClaimsOk(db: Db) {
    SourcesOk(db) && ChargesOk(db) && AllocsOk(db) && NumbersOk(db) && StornosOk(db)
  }

  // ---------- what the invariants mean ----------

  /** No position is on two active invoices, nor twice on one. */
  lemma NoPositionBilledTwice(db: Db, i: nat, j: nat, k: nat, l: nat)
    requires SourcesOk(db) && i < |db.invoices| && j < |db.invoices|
    requires Active(db.invoices[i]) && Active(db.invoices[j])
    requires k < |db.invoices[i].lines| && l < |db.invoices[j].lines|
    requires db.invoices[i].lines[k].position == db.invoices[j].lines[l].position
    ensures i == j && k == l
  {
    var p := db.invoices[i].lines[k].position;
    assert p in Positions(db.invoices[i].lines) && p in Positions(db.invoices[j].lines);
  }

  // ---------- frames ----------

  predicate SameDocument(a: Invoice, b: Invoice) {
    b == a.(paid := b.paid)
  }

  /** Only money moved: documents keep everything but what is paid on them. */
  predicate DocumentsKept(db: Db, next: Db) {
    && |next.invoices| == |db.invoices|
    && (forall i :: 0 <= i < |db.invoices| ==> SameDocument(db.invoices[i], next.invoices[i]))
    && next.sources == db.sources && next.nextNo == db.nextNo
  }

  lemma DocumentsKeptKeepsClaims(db: Db, next: Db)
    requires DocumentsKept(db, next)
    ensures SourcesOk(db) ==> SourcesOk(next)
    ensures NumbersOk(db) ==> NumbersOk(next)
    ensures StornosOk(db) ==> StornosOk(next)
    ensures ChargesOk(db) && next.charges == db.charges && next.nextCharge == db.nextCharge ==> ChargesOk(next)
  {
    hide Positions, DistinctPositions, Negated, Backed, ChargeIdsOk;
    forall i | 0 <= i < |db.invoices| ensures SameDocument(db.invoices[i], next.invoices[i]) { }
    SourcesFrame(db, next);
    StornosFrame(db, next);
    ChargesFrame(db, next);
    hide SourcesOk, StornosOk, ChargesOk;
  }

  lemma SourcesFrame(db: Db, next: Db)
    requires DocumentsKept(db, next)
    ensures SourcesOk(db) ==> SourcesOk(next)
  {
    hide Positions, DistinctPositions;
    assert forall i :: 0 <= i < |db.invoices| ==>
      SameDocument(db.invoices[i], next.invoices[i]) && Active(next.invoices[i]) == Active(db.invoices[i]);
    assert forall p :: p in db.sources && Owns(db, db.sources[p], p) ==> Owns(next, db.sources[p], p);
  }

  lemma StornosFrame(db: Db, next: Db)
    requires DocumentsKept(db, next)
    ensures StornosOk(db) ==> StornosOk(next)
  {
    hide Negated;
    assert forall i :: 0 <= i < |db.invoices| ==> SameDocument(db.invoices[i], next.invoices[i]);
    if StornosOk(db) {
      forall i | 0 <= i < |next.invoices| && next.invoices[i].canceled
        ensures exists s :: i < s < |next.invoices| && next.invoices[s].cancels == Some(i)
      {
        assert db.invoices[i].canceled;
        var s :| i < s < |db.invoices| && db.invoices[s].cancels == Some(i);
        assert next.invoices[s].cancels == Some(i);
      }
    }
  }

  lemma ChargesFrame(db: Db, next: Db)
    requires DocumentsKept(db, next)
    ensures ChargesOk(db) && next.charges == db.charges && next.nextCharge == db.nextCharge ==> ChargesOk(next)
  {
    hide Backed;
    assert forall i :: 0 <= i < |db.invoices| ==>
      SameDocument(db.invoices[i], next.invoices[i]) && Active(next.invoices[i]) == Active(db.invoices[i]);
  }

  // ---------- issuing ----------

  lemma {:induction false} LockLinesAdds(sources: map<Position, nat>, lines: seq<OwedItem>, id: nat)
    ensures forall p :: p in LockLines(sources, lines, id) <==> p in sources || p in Positions(lines)
    ensures forall p :: p in LockLines(sources, lines, id) ==>
      LockLines(sources, lines, id)[p] == if p in Positions(lines) then id else sources[p]
  {
    if lines != [] {
      var n := |lines| - 1;
      LockLinesAdds(sources, lines[..n], id);
      PositionsOfParts(lines[..n], [lines[n]]);
      assert lines == lines[..n] + [lines[n]];
      assert Positions([lines[n]]) == {lines[n].position};
    }
  }

  /** Locking succeeds exactly for lines that are distinct, free and unclaimed. */
  lemma {:induction false} LockAllSound(db: Db, sources: map<Position, nat>, lines: seq<OwedItem>, id: nat)
    ensures var l := LockAll(sources, db.allocs, lines, id);
      && (l.Locks? <==>
            && DistinctPositions(lines) && (forall p :: p in Positions(lines) ==> p !in sources)
            && (forall p :: p in Positions(lines) && p.kind.OneOffCharge? ==> !Claimed(db, p.ref)))
      && (l.Locks? ==> l.sources == LockLines(sources, lines, id))
      && (l.Conflict? ==> l.error == AlreadyBilled || l.error == ChargeClaimed)
      && ((forall p :: p in Positions(lines) && p.kind.OneOffCharge? ==> !Claimed(db, p.ref)) && l.Conflict? ==>
            l.error == AlreadyBilled)
  {
    hide ChargeHasAlloc;
    if lines != [] {
      var n := |lines| - 1;
      var rest := lines[..n];
      LockAllSound(db, sources, rest, id);
      PositionsOfParts(rest, [lines[n]]);
      assert lines == rest + [lines[n]];
      assert Positions([lines[n]]) == {lines[n].position};
      LockLinesAdds(sources, rest, id);
      DistinctAppend(rest, lines[n]);
      hide Positions, DistinctPositions, LockLines;
      assert LockLines(sources, lines, id) == LockLines(sources, rest, id)[lines[n].position := id] by { LockLinesStep(sources, lines, id); }
    }
  }

  lemma LockLinesStep(sources: map<Position, nat>, lines: seq<OwedItem>, id: nat)
    requires lines != []
    ensures LockLines(sources, lines, id) == LockLines(sources, lines[..|lines| - 1], id)[lines[|lines| - 1].position := id]
  {
  }

  lemma DistinctAppend(lines: seq<OwedItem>, it: OwedItem)
    ensures DistinctPositions(lines + [it]) <==> DistinctPositions(lines) && it.position !in Positions(lines)
  {
    if DistinctPositions(lines + [it]) {
      forall i | 0 <= i < |lines| ensures lines[i].position != it.position {
        assert (lines + [it])[i] == lines[i] && (lines + [it])[|lines|] == it;
      }
      forall i, j | 0 <= i < j < |lines| ensures lines[i].position != lines[j].position {
        assert (lines + [it])[i] == lines[i] && (lines + [it])[j] == lines[j];
      }
    }
  }

  lemma ActiveAreOld(invoices: seq<Invoice>, inv: Invoice)
    ensures forall i :: 0 <= i < |invoices| ==> (invoices + [inv])[i] == invoices[i]
    ensures (invoices + [inv])[|invoices|] == inv
  {
  }

  lemma IssuedKeepsSources(db: Db, next: Db, inv: Invoice)
    requires SourcesOk(db) && Active(inv) && next.invoices == db.invoices + [inv]
    requires DistinctPositions(inv.lines) && forall p :: p in Positions(inv.lines) ==> p !in db.sources
    requires next.sources == LockLines(db.sources, inv.lines, |db.invoices|)
    ensures SourcesOk(next)
  {
    var n := |db.invoices|;
    LockLinesAdds(db.sources, inv.lines, n);
    ActiveAreOld(db.invoices, inv);
    hide Positions, DistinctPositions, LockLines;
    forall p | p in next.sources ensures Owns(next, next.sources[p], p) {
      if p !in Positions(inv.lines) { assert Owns(db, db.sources[p], p); }
    }
  }

  lemma AppendKeepsNumbers(db: Db, next: Db, inv: Invoice)
    requires NumbersOk(db) && next.invoices == db.invoices + [inv] && next.nextNo == db.nextNo + 1
    requires inv.no == db.nextNo && !NumberIsTaken(db, inv.number)
    ensures NumbersOk(next)
  {
    ActiveAreOld(db.invoices, inv);
  }

  lemma AppendKeepsStornos(db: Db, next: Db, inv: Invoice)
    requires StornosOk(db) && next.invoices == db.invoices + [inv] && inv.cancels.None? && !inv.canceled
    ensures StornosOk(next)
  {
    hide Negated;
    ActiveAreOld(db.invoices, inv);
    forall s | 0 <= s < |next.invoices| && next.invoices[s].cancels.Some?
      ensures Counters(next.invoices, s, next.invoices[s].cancels.value)
    {
      assert Counters(db.invoices, s, db.invoices[s].cancels.value);
    }
    forall i | 0 <= i < |next.invoices| && next.invoices[i].canceled
      ensures exists s :: i < s < |next.invoices| && next.invoices[s].cancels == Some(i)
    {
      assert i < |db.invoices| && db.invoices[i].canceled;
      var s :| i < s < |db.invoices| && db.invoices[s].cancels == Some(i);
      assert next.invoices[s].cancels == Some(i);
    }
  }

  predicate FromRow(db: Db, person: nat, n: nat, c: Charge)
    requires n <= |db.charges|
  {
    exists m :: 0 <= m < n && db.charges[m].person == person && c == ChargeOf(db, db.charges[m])
  }

  lemma {:induction false} ChargesOfRows(db: Db, person: nat, n: nat)
    requires n <= |db.charges|
    ensures forall c :: c in ChargesOf(db, person, n) ==> FromRow(db, person, n, c)
    ensures (forall m, l :: 0 <= m < l < n ==> db.charges[m].id != db.charges[l].id) ==>
      (forall j, k :: 0 <= j < k < |ChargesOf(db, person, n)| ==>
         ChargesOf(db, person, n)[j].id != ChargesOf(db, person, n)[k].id)
  {
    hide Claimed;
    if n > 0 {
      ChargesOfRows(db, person, n - 1);
      var before, c := ChargesOf(db, person, n - 1), db.charges[n - 1];
      var after := ChargesOf(db, person, n);
      forall x | x in before ensures FromRow(db, person, n, x) {
        assert FromRow(db, person, n - 1, x);
      }
      forall k | 0 <= k < |before| ensures exists m :: 0 <= m < n - 1 && before[k].id == db.charges[m].id {
        assert before[k] in before && FromRow(db, person, n - 1, before[k]);
      }
    }
  }

  /** Every charge line of a new invoice is backed by its row. */
  lemma NewLinesAreBacked(db: Db, person: nat, acc: Accounts, asOf: nat)
    ensures forall it :: it in OpenLines(db, person, acc, asOf) ==> BackedLine(db.charges, it)
  {
    var b, locked := BillableOf(db, person, acc), LockedPositions(db, person);
    hide ChargeLines, SourceLines, VehicleSources, ChargeTotal, LockedPositions, ChargesOf;
    ChargeLinesFresh(b.charges, false, locked);
    ChargeLinesFresh(b.charges, true, locked);
    VehicleSourcesDistinct(b.vehicles);
    SourceLinesFresh(VehicleSources(b.vehicles), asOf, locked);
    SourceLinesFresh(b.agreements, asOf, locked);
    SourceLinesFresh(b.recurring, asOf, locked);
    ChargesOfRows(db, person, |db.charges|);
    hide FreshLines;
    forall it | it in OpenLines(db, person, acc, asOf) ensures BackedLine(db.charges, it) {
      if it.position.kind.OneOffCharge? {
        assert it in ChargeLines(b.charges, false, locked) || it in ChargeLines(b.charges, true, locked);
        var k :| 0 <= k < |b.charges| && it.position == Position(OneOffCharge, b.charges[k].id, "")
                 && it.amount == ChargeTotal(b.charges[k].amount, b.charges[k].quantity);
        assert b.charges[k] in b.charges && FromRow(db, person, |db.charges|, b.charges[k]);
      }
    }
  }

  lemma IssuedKeepsCharges(db: Db, next: Db, inv: Invoice)
    requires ChargesOk(db) && next.invoices == db.invoices + [inv]
    requires next.charges == db.charges && next.nextCharge == db.nextCharge
    requires forall it :: it in inv.lines ==> BackedLine(db.charges, it)
    ensures ChargesOk(next)
  {
    hide BackedLine;
    ActiveAreOld(db.invoices, inv);
  }

  lemma IssuedKeepsAllocs(db: Db, next: Db, lines: seq<OwedItem>, id: nat)
    requires AllocsOk(db) && next.charges == db.charges && next.payments == db.payments && next.allocs == db.allocs
    requires next.sources == LockLines(db.sources, lines, id)
    requires forall p :: p in Positions(lines) && p.kind.OneOffCharge? ==> !Claimed(db, p.ref)
    ensures AllocsOk(next)
  {
    LockLinesAdds(db.sources, lines, id);
    hide Positions, LockLines, Backed;
  }

  lemma CreateInvoiceKeepsClaims(
    db: Db, person: nat, known: bool, acc: Accounts, rate: nat, parts: Particulars, asOf: nat)
    requires ClaimsOk(db)
    ensures ClaimsOk(Apply(db, CreateInvoice(db, person, known, acc, rate, parts, asOf)))
  {
    hide OpenLines, SourcesOk, ChargesOk, AllocsOk, NumbersOk, StornosOk, Positions, LockLines, Gross, NumberText, NumberIsTaken,
      DistinctPositions, Claimed, BackedLine;
    var o := CreateInvoice(db, person, known, acc, rate, parts, asOf);
    if o.Committed? {
      var lines := OpenLines(db, person, acc, asOf);
      var inv := o.db.invoices[|db.invoices|];
      LockAllSound(db, db.sources, lines, |db.invoices|);
      hide LockAll;
      NewLinesAreBacked(db, person, acc, asOf);
      IssuedKeepsSources(db, o.db, inv);
      IssuedKeepsCharges(db, o.db, inv);
      IssuedKeepsAllocs(db, o.db, lines, |db.invoices|);
      AppendKeepsNumbers(db, o.db, inv);
      AppendKeepsStornos(db, o.db, inv);
    }
  }

  // ---------- cancelling ----------

  lemma CancelKeepsSources(db: Db, next: Db, id: nat, storno: Invoice)
    requires SourcesOk(db) && id < |db.invoices| && Active(db.invoices[id]) && storno.cancels.Some?
    requires next.invoices == db.invoices[id := db.invoices[id].(canceled := true, paid := 0)] + [storno]
    requires next.sources == map p | p in db.sources && db.sources[p] != id :: db.sources[p]
    ensures SourcesOk(next)
    ensures forall p :: p in next.sources <==> p in db.sources && p !in Positions(db.invoices[id].lines)
  {
    hide Positions, DistinctPositions;
    ActiveAreOld(db.invoices[id := db.invoices[id].(canceled := true, paid := 0)], storno);
    forall p | p in next.sources ensures Owns(next, next.sources[p], p) {
      assert Owns(db, db.sources[p], p);
    }
    forall p | p in db.sources ensures db.sources[p] == id <==> p in Positions(db.invoices[id].lines) {
      assert Owns(db, db.sources[p], p);
    }
  }

  lemma CancelKeepsStornos(db: Db, next: Db, id: nat, storno: Invoice)
    requires StornosOk(db) && id < |db.invoices| && Active(db.invoices[id])
    requires next.invoices == db.invoices[id := db.invoices[id].(canceled := true, paid := 0)] + [storno]
    requires storno.cancels == Some(id) && !storno.canceled && storno.person == db.invoices[id].person
    requires storno.total == -db.invoices[id].total && storno.lines == Negated(db.invoices[id].lines)
    ensures StornosOk(next)
  {
    hide Negated;
    ActiveAreOld(db.invoices[id := db.invoices[id].(canceled := true, paid := 0)], storno);
    var n := |db.invoices|;
    forall s | 0 <= s < n && db.invoices[s].cancels.Some?
      ensures db.invoices[s].cancels != Some(id) && Counters(db.invoices, s, db.invoices[s].cancels.value)
    {
      assert Counters(db.invoices, s, db.invoices[s].cancels.value);
    }
    forall s | 0 <= s < |next.invoices| && next.invoices[s].cancels.Some?
      ensures Counters(next.invoices, s, next.invoices[s].cancels.value)
    {
      if s < n { assert Counters(db.invoices, s, db.invoices[s].cancels.value); }
    }
    forall i | 0 <= i < |next.invoices| && next.invoices[i].canceled
      ensures exists s :: i < s < |next.invoices| && next.invoices[s].cancels == Some(i)
    {
      if i == id {
        assert next.invoices[n].cancels == Some(i);
      } else {
        assert db.invoices[i].canceled;
        var s :| i < s < n && db.invoices[s].cancels == Some(i);
        assert next.invoices[s].cancels == Some(i);
      }
    }
  }

  lemma CancelInvoiceKeepsClaims(db: Db, id: nat, asOf: nat)
    requires ClaimsOk(db)
    ensures ClaimsOk(Apply(db, CancelInvoice(db, id, asOf)))
  {
    hide SourcesOk, StornosOk, Positions, NumberText, Negated, BackedLine, Backed, DropInvoice;
    var o := CancelInvoice(db, id, asOf);
    if o.Committed? {
      var storno := o.db.invoices[|db.invoices|];
      CancelKeepsSources(db, o.db, id, storno);
      CancelKeepsStornos(db, o.db, id, storno);
      var mid := db.(invoices := db.invoices[id := db.invoices[id].(canceled := true, paid := 0)]);
      assert NumbersOk(mid);
      AppendKeepsNumbers(mid, o.db, storno);
      assert ChargesOk(o.db) by { ActiveAreOld(mid.invoices, storno); hide NumbersOk, AllocsOk; }
      hide NumbersOk, ChargesOk, NumberIsTaken;
    }
  }

  /** Storno releases exactly the positions of the document it cancels. */
  lemma StornoReleasesExactly(db: Db, id: nat, asOf: nat)
    requires SourcesOk(db) && CancelInvoice(db, id, asOf).Committed?
    ensures var next := CancelInvoice(db, id, asOf).db;
      forall p :: p in next.sources <==> p in db.sources && p !in Positions(db.invoices[id].lines)
  {
    var next := CancelInvoice(db, id, asOf).db;
    hide SourcesOk, Positions, NumberText, Negated, NumberIsTaken;
    CancelKeepsSources(db, next, id, next.invoices[|db.invoices|]);
  }
}
