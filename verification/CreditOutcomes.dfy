/**
 In which order the credit sweep works: documents are covered by id, each in full before the next
 gets anything, and receipts are drawn down by id, each to the end before the next is touched.
 */
module CreditOutcomes {
  import opened PeriodKeys
  import opened Accrual
  import opened OwedLines
  import opened InvoiceLines
  import opened LedgerState
  import opened LedgerMoney
  import opened LedgerCredit

  // ---------- nothing left to draw ----------

  lemma {:induction false} NoneFreeForOne(db: Db, i: nat, open: int, ids: seq<nat>)
    requires i < |db.invoices| && forall k :: 0 <= k < |ids| ==> ids[k] < |db.payments| && Free(db, ids[k]) <= 0
    ensures DrawFor(db, i, open, ids) == db
    decreases |ids|
  {
    hide Used;
    if ids != [] { NoneFreeForOne(db, i, open, ids[1..]); }
  }

  lemma {:induction false} NoneFree(db: Db, open: seq<nat>, ids: seq<nat>)
    requires forall k :: 0 <= k < |open| ==> open[k] < |db.invoices|
    requires forall k :: 0 <= k < |ids| ==> ids[k] < |db.payments| && Free(db, ids[k]) <= 0
    ensures DrawLoop(db, open, ids) == db
    decreases |open|
  {
    hide Used, DrawFor;
    if open != [] {
      NoneFreeForOne(db, open[0], OpenAmount(db, open[0]), ids);
      NoneFree(db, open[1..], ids);
    }
  }

  // ---------- documents in order ----------

  /** The state after the first document, and what is known of it. */
  lemma FirstDocument(db: Db, person: nat, open: seq<nat>, ids: seq<nat>) returns (mid: Db)
    requires MoneyOk(db) && OpenItems(db, person, open) && Receipts(db, person, ids) && open != []
    ensures MoneyOk(mid) && OpenItems(mid, person, open[1..]) && Receipts(mid, person, ids)
    ensures DrewOn(db, mid, open[0], ids, Min(OpenAmount(db, open[0]), SumFree(db, ids)))
    ensures mid == DrawFor(db, open[0], OpenAmount(db, open[0]), ids)
    ensures DrawLoop(db, open, ids) == DrawLoop(mid, open[1..], ids)
  {
    hide MoneyOk, Used;
    OpenIsPositive(db, person, open[0]);
    DrawForShape(db, open[0], OpenAmount(db, open[0]), ids);
    DrawForDraws(db, person, open[0], OpenAmount(db, open[0]), ids);
    mid := DrawFor(db, open[0], OpenAmount(db, open[0]), ids);
    DrewLeavesOpen(db, mid, person, open, ids, Min(OpenAmount(db, open[0]), SumFree(db, ids)));
  }

  /** A document gets credit only once every one before it is paid in full. */
  lemma {:induction false} EarlierDocumentsClose(db: Db, person: nat, open: seq<nat>, ids: seq<nat>, j: nat, k: nat)
    requires MoneyOk(db) && OpenItems(db, person, open) && Receipts(db, person, ids) && j < k < |open|
    ensures var next := DrawLoop(db, open, ids);
      && |next.invoices| == |db.invoices|
      && (next.invoices[open[k]] != db.invoices[open[k]] ==> next.invoices[open[j]].paid == next.invoices[open[j]].total)
    decreases |open|
  {
    hide MoneyOk, Used, SumFree, IsOpenItem, DrawFor, DrawLoop;
    DrawLoopSweeps(db, person, open, ids);
    var mid := FirstDocument(db, person, open, ids);
    var next := DrawLoop(db, open, ids);
    DrawLoopSweeps(mid, person, open[1..], ids);
    if next.invoices[open[k]] != db.invoices[open[k]] {
      assert open[k] == open[1..][k - 1] && open[k] != open[0];
      if j > 0 {
        EarlierDocumentsClose(mid, person, open[1..], ids, j - 1, k - 1);
      } else {
        MoneyImpliesUsed(mid);
        SumFreeNonnegative(mid, ids);
        if SumFree(mid, ids) <= 0 { NoneFree(mid, open[1..], ids); }
        assert open[0] !in open[1..];
      }
    }
  }

  // ---------- receipts in order ----------

  /** What is spent of a receipt never shrinks in a draw. */
  lemma {:induction false} SpentGrows(db: Db, person: nat, i: nat, open: int, ids: seq<nat>, q: nat)
    requires MoneyOk(db) && Receipts(db, person, ids) && i < |db.invoices| && Active(db.invoices[i])
    requires db.invoices[i].person == person && open == OpenAmount(db, i)
    ensures Used(DrawFor(db, i, open, ids), q) >= Used(db, q)
    decreases |ids|
  {
    hide MoneyOk, Used, SumFree, IsOpenItem;
    if ids != [] && open > 0 {
      var mid := DrawMid(db, person, i, open, ids);
      var amount := Min(Free(db, ids[0]), open);
      AddLinkSums(db, i, ids[0], amount, q);
      hide DrawFor;
      SpentGrows(mid, person, i, open - amount, ids[1..], q);
    }
  }

  /** For one document: a receipt is touched only once every one before it is spent. */
  lemma {:induction false} EarlierReceiptsDrain(db: Db, person: nat, i: nat, open: int, ids: seq<nat>, j: nat, k: nat)
    requires MoneyOk(db) && Receipts(db, person, ids) && i < |db.invoices| && Active(db.invoices[i])
    requires db.invoices[i].person == person && open == OpenAmount(db, i) && j < k < |ids|
    ensures var next := DrawFor(db, i, open, ids);
      next.payments == db.payments && (Used(next, ids[k]) != Used(db, ids[k]) ==> Free(next, ids[j]) == 0)
    decreases |ids|
  {
    hide MoneyOk, Used, SumFree, IsOpenItem;
    DrawForShape(db, i, open, ids);
    if open > 0 {
      var p, rest := ids[0], ids[1..];
      var amount := Min(Free(db, p), open);
      MoneyImpliesUsed(db);
      var mid := DrawMid(db, person, i, open, ids);
      AddLinkSums(db, i, p, amount, p);
      AddLinkSums(db, i, p, amount, ids[k]);
      assert ids[k] == rest[k - 1] && p !in rest;
      hide DrawFor;
      DrawForDraws(mid, person, i, open - amount, rest);
      if j > 0 {
        EarlierReceiptsDrain(mid, person, i, open - amount, rest, j - 1, k - 1);
      } else if amount == open {
        NothingMore(mid, i, rest);
      } else {
        assert FreeIsNot(db, p) by { FreeOrNot(db, p); }
      }
    }
  }

  predicate FreeIsNot(db: Db, p: nat)
    requires p < |db.payments|
  {
    Free(db, p) >= 0
  }

  lemma FreeOrNot(db: Db, p: nat)
    requires UsedOk(db) && p < |db.payments|
    ensures FreeIsNot(db, p)
  {
    hide Used;
  }

  lemma NothingMore(db: Db, i: nat, ids: seq<nat>)
    requires i < |db.invoices| && forall k :: 0 <= k < |ids| ==> ids[k] < |db.payments|
    ensures DrawFor(db, i, 0, ids) == db
  {
  }

  lemma {:induction false} SweepSpendsMore(db: Db, person: nat, open: seq<nat>, ids: seq<nat>, q: nat)
    requires MoneyOk(db) && OpenItems(db, person, open) && Receipts(db, person, ids)
    ensures Used(DrawLoop(db, open, ids), q) >= Used(db, q) && DrawLoop(db, open, ids).payments == db.payments
    decreases |open|
  {
    hide MoneyOk, Used, SumFree, IsOpenItem, DrawFor;
    if open != [] {
      OpenIsPositive(db, person, open[0]);
      SpentGrows(db, person, open[0], OpenAmount(db, open[0]), ids, q);
      var mid := FirstDocument(db, person, open, ids);
      hide DrawLoop;
      SweepSpendsMore(mid, person, open[1..], ids, q);
    }
  }

  /** Over all documents: a receipt is touched only once every one before it is spent. */
  lemma {:induction false} SweepDrainsInOrder(db: Db, person: nat, open: seq<nat>, ids: seq<nat>, j: nat, k: nat)
    requires MoneyOk(db) && OpenItems(db, person, open) && Receipts(db, person, ids) && j < k < |ids|
    ensures var next := DrawLoop(db, open, ids);
      next.payments == db.payments && (Used(next, ids[k]) != Used(db, ids[k]) ==> Free(next, ids[j]) == 0)
    decreases |open|
  {
    hide MoneyOk, Used, SumFree, IsOpenItem, DrawFor;
    if open != [] {
      OpenIsPositive(db, person, open[0]);
      EarlierReceiptsDrain(db, person, open[0], OpenAmount(db, open[0]), ids, j, k);
      var mid := FirstDocument(db, person, open, ids);
      hide DrawLoop;
      SweepDrainsInOrder(mid, person, open[1..], ids, j, k);
      SweepSpendsMore(mid, person, open[1..], ids, ids[j]);
      DrawLoopSweeps(mid, person, open[1..], ids);
      var next := DrawLoop(mid, open[1..], ids);
      MoneyImpliesUsed(next);
      FreeOrNot(next, ids[j]);
    }
  }

  // ---------- the sweep ----------

  predicate IsOpen(inv: Invoice, person: nat) {
    inv.person == person && !inv.canceled && inv.cancels.None? && inv.paid < inv.total
  }

  predicate HasCredit(db: Db, person: nat, p: nat)
    requires p < |db.payments|
  {
    db.payments[p].person == person && !db.payments[p].reversed && db.payments[p].settles.None? && Free(db, p) > 0
  }

  /** The sweep covers open documents by id: one changes only if all open ones before it end up paid. */
  lemma DocumentsAreCoveredInOrder(db: Db, person: nat, a: nat, b: nat)
    requires MoneyOk(db) && a < b < |db.invoices| && IsOpen(db.invoices[a], person)
    ensures var next := ApplyCredit(db, person);
      && |next.invoices| == |db.invoices|
      && (next.invoices[b] != db.invoices[b] ==> next.invoices[a].paid == next.invoices[a].total)
  {
    hide ApplyCredit, OpenById, CreditPayments, MoneyOk, Used, SumFree, SumOpen, DrawLoop;
    var open, ids := OpenById(db, person, |db.invoices|), CreditPayments(db, person, |db.payments|);
    var next := ApplyCredit(db, person);
    ApplyCreditSweeps(db, person);
    OpenByIdComplete(db, person, |db.invoices|);
    SweepIs(db, person);
    hide Receipts;
    if next.invoices[b] != db.invoices[b] {
      assert IsOpenItem(db, person, a);
      var j :| 0 <= j < |open| && open[j] == a;
      var k :| 0 <= k < |open| && open[k] == b;
      hide IsOpenItem, IsOpen, Swept, OpenItems;
      EarlierDocumentsClose(db, person, open, ids, j, k);
    }
  }

  lemma SweepIs(db: Db, person: nat)
    ensures ApplyCredit(db, person)
         == DrawLoop(db, OpenById(db, person, |db.invoices|), CreditPayments(db, person, |db.payments|))
  {
  }

  /** And draws down receipts by id: one is touched only if all with credit before it end up spent. */
  lemma ReceiptsAreDrawnInOrder(db: Db, person: nat, a: nat, b: nat)
    requires MoneyOk(db) && a < b < |db.payments| && HasCredit(db, person, a)
    ensures var next := ApplyCredit(db, person);
      next.payments == db.payments && (Used(next, b) != Used(db, b) ==> Free(next, a) == 0)
  {
    hide ApplyCredit, OpenById, CreditPayments, MoneyOk, Used, SumFree, SumOpen, DrawLoop;
    var open, ids := OpenById(db, person, |db.invoices|), CreditPayments(db, person, |db.payments|);
    var next := ApplyCredit(db, person);
    ApplyCreditSweeps(db, person);
    CreditPaymentsComplete(db, person, |db.payments|);
    SweepIs(db, person);
    hide OpenItems;
    if Used(next, b) != Used(db, b) {
      assert IsCredit(db, person, a);
      var j :| 0 <= j < |ids| && ids[j] == a;
      var k :| 0 <= k < |ids| && ids[k] == b;
      hide IsCredit, HasCredit, Swept, Receipts;
      SweepDrainsInOrder(db, person, open, ids, j, k);
    }
  }

  /**
   Nothing but the person's open documents and receipts with money left takes part, and each document
   gets no more than it is open for.
   */
  lemma CreditStaysWithThem(db: Db, person: nat, i: nat, p: nat)
    requires MoneyOk(db)
    ensures var next := ApplyCredit(db, person);
      && |next.invoices| == |db.invoices| && next == db.(invoices := next.invoices, links := next.links)
      && (i < |db.invoices| && !IsOpen(db.invoices[i], person) ==> next.invoices[i] == db.invoices[i])
      && (i < |db.invoices| && IsOpen(db.invoices[i], person) ==>
            db.invoices[i].paid <= next.invoices[i].paid <= db.invoices[i].total
            && next.invoices[i] == db.invoices[i].(paid := next.invoices[i].paid))
      && (p < |db.payments| && !HasCredit(db, person, p) ==> Used(next, p) == Used(db, p))
  {
    var open, ids := OpenById(db, person, |db.invoices|), CreditPayments(db, person, |db.payments|);
    var next := ApplyCredit(db, person);
    ApplyCreditSweeps(db, person);
    PaidWithin(next);
    hide ApplyCredit, MoneyOk, Used, SumFree, SumOpen, OpenById, CreditPayments;
    if i in open {
      var k :| 0 <= k < |open| && open[k] == i;
      assert IsOpenItem(db, person, open[k]);
    }
    if p in ids {
      var k :| 0 <= k < |ids| && ids[k] == p;
      assert IsCredit(db, person, ids[k]);
    }
  }

  lemma PaidWithin(db: Db)
    requires MoneyOk(db)
    ensures forall i :: 0 <= i < |db.invoices| && Active(db.invoices[i]) ==> db.invoices[i].paid <= db.invoices[i].total
  {
  }
}
