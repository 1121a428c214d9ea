/**
 Issuing, cancelling, booking and reversing keep the books: every document's paid amount is
 the sum of its links and no receipt is spent beyond its amount.
 */
module LedgerBooks {
  import opened PeriodKeys
  import opened Accrual
  import opened OwedLines
  import opened InvoiceLines
  import opened LedgerState
  import opened LedgerMoney

  // ---------- issuing and cancelling ----------

  lemma {:induction false} FreshLinesSum(lines: seq<OwedItem>, locked: set<Position>)
    requires FreshLines(lines, locked)
    ensures SumLines(lines) >= 0 && (lines != [] ==> SumLines(lines) > 0)
  {
    if lines != [] {
      assert lines[|lines| - 1] in lines;
      FreshLinesSum(lines[..|lines| - 1], locked);
    }
  }

  lemma GrossIsPositive(subtotal: int, rate: nat)
    requires subtotal > 0
    ensures Gross(subtotal, rate) >= subtotal
  {
    assert subtotal * rate >= 0;
    RoundDivMonotone(0, subtotal * rate, 100);
  }

  lemma NewDocumentHasNoLinks(db: Db, i: nat)
    requires LinksOk(db) && i >= |db.invoices|
    ensures Linked(db.links, i) == 0
  {
    forall k | 0 <= k < |db.links| ensures db.links[k].invoice != i { assert LinkOk(db, db.links[k]); }
    NoRowsNoSum(db.links, i, 0);
  }

  lemma AppendDocumentKeepsMoney(db: Db, next: Db, inv: Invoice)
    requires MoneyOk(db) && inv.paid == 0 && (Active(inv) ==> inv.total >= 0)
    requires next.invoices == db.invoices + [inv]
    requires next.payments == db.payments && next.links == db.links && next.allocs == db.allocs
    ensures MoneyOk(next)
  {
    NewDocumentHasNoLinks(db, |db.invoices|);
    forall k | 0 <= k < |next.links| ensures LinkOk(next, next.links[k]) { assert LinkOk(db, db.links[k]); }
    forall p | 0 <= p < |next.payments| ensures 0 <= Used(next, p) <= next.payments[p].amount {
      assert Used(next, p) == Used(db, p);
    }
    hide Linked, Used;
  }

  lemma CreateInvoiceKeepsMoney(
    db: Db, person: nat, known: bool, acc: Accounts, rate: nat, parts: Particulars, asOf: nat)
    requires MoneyOk(db)
    ensures MoneyOk(Apply(db, CreateInvoice(db, person, known, acc, rate, parts, asOf)))
  {
    var lines := OpenLines(db, person, acc, asOf);
    var o := CreateInvoice(db, person, known, acc, rate, parts, asOf);
    AllLinesFresh(BillableOf(db, person, acc), asOf, LockedPositions(db, person));
    hide AllLines;
    FreshLinesSum(lines, LockedPositions(db, person));
    hide OpenLines, MoneyOk, Gross, NumberText, LockAll;
    if o.Committed? {
      GrossIsPositive(SumLines(lines), rate);
      var inv := Invoice(person, db.nextNo, NumberText(db), asOf, Gross(SumLines(lines), rate), 0, false, None, lines);
      AppendDocumentKeepsMoney(db, o.db, inv);
    }
  }

  lemma UsedIsNonnegative(db: Db, p: nat, i: nat)
    requires LinksOk(db) && AllocRowsOk(db)
    ensures 0 <= LinkedVia(db.links, i, p) <= UsedByLinks(db.links, p)
    ensures LinkedVia(db.links, i, p) <= Linked(db.links, i)
    ensures 0 <= UsedByAllocs(db.allocs, p)
  {
    forall k | 0 <= k < |db.links| ensures db.links[k].amount > 0 { assert LinkOk(db, db.links[k]); }
    SumsBounded(db.links, i, p);
    AllocSumNonnegative(db.allocs, p);
  }

  lemma {:induction false} AllocSumNonnegative(allocs: seq<Alloc>, p: nat)
    requires forall k :: 0 <= k < |allocs| ==> allocs[k].amount > 0
    ensures UsedByAllocs(allocs, p) >= 0
  {
    if allocs != [] { AllocSumNonnegative(allocs[..|allocs| - 1], p); }
  }

  lemma VoidingKeepsMoney(db: Db, next: Db, id: nat)
    requires MoneyOk(db) && id < |db.invoices| && Active(db.invoices[id])
    requires next.invoices == db.invoices[id := db.invoices[id].(canceled := true, paid := 0)]
    requires next.links == DropInvoice(db.links, id) && next.payments == db.payments && next.allocs == db.allocs
    ensures MoneyOk(next)
  {
    hide Linked, UsedByLinks, UsedByAllocs, DropInvoice, LinkOk;
    assert LinksOk(next) by {
      forall k | 0 <= k < |next.links| ensures LinkOk(next, next.links[k]) { VoidedLink(db, next, id, k); }
    }
    forall j | 0 <= j < |next.invoices|
      ensures next.invoices[j].paid == Linked(next.links, j)
      ensures Active(next.invoices[j]) ==> 0 <= next.invoices[j].paid <= next.invoices[j].total
    {
      DropInvoiceSums(db.links, id, j, 0);
    }
    forall p | 0 <= p < |next.payments| ensures 0 <= Used(next, p) <= next.payments[p].amount {
      DropInvoiceSums(db.links, id, id, p);
      UsedIsNonnegative(db, p, id);
      assert 0 <= Used(db, p) <= db.payments[p].amount;
    }
  }

  lemma VoidedLink(db: Db, next: Db, id: nat, k: nat)
    requires LinksOk(db) && id < |db.invoices| && next.payments == db.payments
    requires next.invoices == db.invoices[id := db.invoices[id].(canceled := true, paid := 0)]
    requires next.links == DropInvoice(db.links, id) && k < |next.links|
    ensures LinkOk(next, next.links[k])
  {
    DroppedRows(db.links, id, 0);
    assert next.links[k] in next.links;
    var j :| 0 <= j < |db.links| && db.links[j] == next.links[k];
    assert LinkOk(db, db.links[j]);
  }

  /** Cancelling gives every linked receipt its money back and leaves the invoice unpaid. */
  lemma CancelInvoiceKeepsMoney(db: Db, id: nat, asOf: nat)
    requires MoneyOk(db)
    ensures MoneyOk(Apply(db, CancelInvoice(db, id, asOf)))
  {
    hide MoneyOk, NumberText, NumberIsTaken, Negated, DropInvoice;
    var o := CancelInvoice(db, id, asOf);
    if o.Committed? {
      var inv := db.invoices[id];
      var mid := db.(invoices := db.invoices[id := inv.(canceled := true, paid := 0)], links := DropInvoice(db.links, id));
      VoidingKeepsMoney(db, mid, id);
      AppendDocumentKeepsMoney(mid, o.db, o.db.invoices[|db.invoices|]);
    }
  }

  // ---------- new receipts ----------

  lemma NewReceiptIsUnspent(db: Db, p: nat)
    requires LinksOk(db) && AllocRowsOk(db) && p >= |db.payments|
    ensures Used(db, p) == 0
  {
    forall k | 0 <= k < |db.links| ensures db.links[k].payment != p { assert LinkOk(db, db.links[k]); }
    NoRowsNoSum(db.links, 0, p);
    NoAllocsNoSum(db.allocs, p);
  }

  lemma {:induction false} NoAllocsNoSum(allocs: seq<Alloc>, p: nat)
    requires forall k :: 0 <= k < |allocs| ==> allocs[k].payment != p
    ensures UsedByAllocs(allocs, p) == 0
  {
    if allocs != [] { NoAllocsNoSum(allocs[..|allocs| - 1], p); }
  }

  lemma AddPaymentKeepsMoney(db: Db, p: Payment)
    requires MoneyOk(db) && p.amount >= 0
    ensures MoneyOk(AddPayment(db, p)) && Free(AddPayment(db, p), |db.payments|) == p.amount
  {
    var next := AddPayment(db, p);
    NewReceiptIsUnspent(db, |db.payments|);
    assert Used(next, |db.payments|) == Used(db, |db.payments|);
    forall k | 0 <= k < |next.links| ensures LinkOk(next, next.links[k]) { assert LinkOk(db, db.links[k]); }
    forall q | 0 <= q < |next.payments| ensures 0 <= Used(next, q) <= next.payments[q].amount {
      assert Used(next, q) == Used(db, q);
    }
  }

  lemma {:induction false} AllocsAppend(a: seq<Alloc>, b: seq<Alloc>, p: nat)
    ensures UsedByAllocs(a + b, p) == UsedByAllocs(a, p) + UsedByAllocs(b, p)
  {
    if b == [] {
      assert a + b == a;
    } else {
      assert (a + b)[..|a + b| - 1] == a + b[..|b| - 1];
      AllocsAppend(a, b[..|b| - 1], p);
    }
  }

  lemma {:induction false} ExtraAllocsSum(db: Db, person: nat, covered: set<nat>, p: nat, n: nat, q: nat)
    requires n <= |db.charges|
    ensures var allocs := ExtraAllocs(db, person, covered, p, n);
      && (forall k :: 0 <= k < |allocs| ==> allocs[k].amount > 0 && allocs[k].payment == p)
      && UsedByAllocs(allocs, q) == if q == p then SumAllocs(allocs) else 0
  {
    hide ChargeTotal, Claimed;
    if n > 0 {
      ExtraAllocsSum(db, person, covered, p, n - 1, q);
      var before, c := ExtraAllocs(db, person, covered, p, n - 1), db.charges[n - 1];
      if IsOpenExtra(db, person, covered, c) {
        var a := Alloc(c.id, p, ChargeTotal(c.amount, c.quantity));
        assert ExtraAllocs(db, person, covered, p, n) == before + [a];
        hide ExtraAllocs, IsOpenExtra;
        assert (before + [a])[..|before|] == before;
      } else {
        assert ExtraAllocs(db, person, covered, p, n) == before;
      }
    }
  }

  lemma SettleExtrasKeepsMoney(db: Db, person: nat, agreement: nat, covered: set<nat>, actor: nat)
    requires MoneyOk(db)
    ensures MoneyOk(SettleExtras(db, person, agreement, covered, actor))
  {
    var p := |db.payments|;
    var next := SettleExtras(db, person, agreement, covered, actor);
    var allocs := ExtraAllocs(db, person, covered, p, |db.charges|);
    hide ExtraAllocs;
    ExtraAllocsSum(db, person, covered, p, |db.charges|, p);
    if SumAllocs(allocs) > 0 {
      NewReceiptIsUnspent(db, p);
      forall k | 0 <= k < |next.links| ensures LinkOk(next, next.links[k]) { assert LinkOk(db, db.links[k]); }
      hide LinkOk;
      forall q | 0 <= q < |next.payments| ensures 0 <= Used(next, q) <= next.payments[q].amount {
        AllocsAppend(db.allocs, allocs, q);
        ExtraAllocsSum(db, person, covered, p, |db.charges|, q);
        UsedIsNonnegative(db, q, 0);
      }
    }
  }

  /** A receipt booked for a period's extras has nothing left over. */
  lemma SettledReceiptIsSpent(db: Db, person: nat, agreement: nat, covered: set<nat>, actor: nat)
    requires MoneyOk(db)
    ensures var next := SettleExtras(db, person, agreement, covered, actor);
      |next.payments| > |db.payments| ==> Free(next, |db.payments|) == 0
  {
    var p := |db.payments|;
    var allocs := ExtraAllocs(db, person, covered, p, |db.charges|);
    ExtraAllocsSum(db, person, covered, p, |db.charges|, p);
    NewReceiptIsUnspent(db, p);
    AllocsAppend(db.allocs, allocs, p);
  }

  // ---------- reversing a receipt ----------

  /** Reversal takes exactly the receipt's share off every invoice it paid. */
  lemma {:induction false} GiveBackExact(invoices: seq<Invoice>, links: seq<Link>, p: nat, i: nat)
    requires i < |invoices| && LinkedVia(links, i, p) <= invoices[i].paid
    requires forall k :: 0 <= k < |links| ==> links[k].amount > 0
    ensures GiveBack(invoices, links, p)[i] == invoices[i].(paid := invoices[i].paid - LinkedVia(links, i, p))
  {
    if links != [] {
      var rest := links[..|links| - 1];
      SumsBounded(rest, i, p);
      GiveBackExact(invoices, rest, p, i);
    }
  }

  lemma {:induction false} DropAllocsSum(allocs: seq<Alloc>, p: nat, q: nat)
    ensures UsedByAllocs(DropAllocs(allocs, p), q) == if q == p then 0 else UsedByAllocs(allocs, q)
    ensures forall a :: a in DropAllocs(allocs, p) <==> a in allocs && a.payment != p
  {
    if allocs != [] {
      var a := allocs[|allocs| - 1];
      var rest := DropAllocs(allocs[..|allocs| - 1], p);
      DropAllocsSum(allocs[..|allocs| - 1], p, q);
      assert (rest + [a])[..|rest|] == rest && rest + [] == rest;
    }
  }

  lemma ReversalOfInvoices(db: Db, p: nat, i: nat)
    requires MoneyOk(db) && i < |db.invoices|
    ensures var r := GiveBack(db.invoices, db.links, p);
      r[i] == db.invoices[i].(paid := r[i].paid) && r[i].paid == Linked(DropPayment(db.links, p), i)
      && (Active(db.invoices[i]) ==> 0 <= r[i].paid <= db.invoices[i].total)
  {
    UsedIsNonnegative(db, p, i);
    forall k | 0 <= k < |db.links| ensures db.links[k].amount > 0 { assert LinkOk(db, db.links[k]); }
    hide LinkOk;
    GiveBackExact(db.invoices, db.links, p, i);
    DropPaymentSums(db.links, p, i, p);
  }

  lemma ReversePaymentKeepsMoney(db: Db, p: nat)
    requires MoneyOk(db)
    ensures MoneyOk(Apply(db, ReversePayment(db, p)))
  {
    var o := ReversePayment(db, p);
    hide Unstamp, Reopen, GiveBack;
    if o.Committed? {
      var next := o.db;
      forall i | 0 <= i < |next.invoices|
        ensures next.invoices[i] == db.invoices[i].(paid := next.invoices[i].paid)
        ensures next.invoices[i].paid == Linked(next.links, i)
        ensures Active(next.invoices[i]) ==> 0 <= next.invoices[i].paid <= next.invoices[i].total
      {
        hide MoneyOk;
        ReversalOfInvoices(db, p, i);
      }
      forall k | 0 <= k < |next.links| ensures LinkOk(next, next.links[k]) {
        DroppedRows(db.links, 0, p);
        assert next.links[k] in next.links;
        var j :| 0 <= j < |db.links| && db.links[j] == next.links[k];
        assert LinkOk(db, db.links[j]);
      }
      hide LinkOk, Linked;
      ReversalFreesReceipt(db, next, p);
      hide Used;
      assert LinksOk(next) && PaidOk(next);
    }
  }

  lemma ReversalFreesReceipt(db: Db, next: Db, p: nat)
    requires MoneyOk(db) && p < |db.payments|
    requires next.payments == db.payments[p := db.payments[p].(reversed := true)]
    requires next.links == DropPayment(db.links, p) && next.allocs == DropAllocs(db.allocs, p)
    ensures UsedOk(next) && AllocRowsOk(next)
  {
    hide LinksOk, PaidOk, DropPayment, DropAllocs;
    forall q | 0 <= q < |next.payments| ensures 0 <= Used(next, q) <= next.payments[q].amount {
      UsedAfterReversal(db, next, p, q);
      assert 0 <= Used(db, q) <= db.payments[q].amount;
    }
    hide Used;
    DropAllocsSum(db.allocs, p, p);
    forall k | 0 <= k < |next.allocs| ensures next.allocs[k] in db.allocs && next.allocs[k].payment != p {
      assert next.allocs[k] in next.allocs;
    }
  }

  lemma UsedAfterReversal(db: Db, next: Db, p: nat, q: nat)
    requires next.links == DropPayment(db.links, p) && next.allocs == DropAllocs(db.allocs, p)
    ensures Used(next, q) == if q == p then 0 else Used(db, q)
  {
    DropPaymentSums(db.links, p, 0, q);
    DropAllocsSum(db.allocs, p, q);
  }
}
