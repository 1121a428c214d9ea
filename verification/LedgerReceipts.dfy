/**
 Receipts: idempotency keys, deposits and bank transactions. A deposit balance is never
 negative and a bank transaction has exactly one standing receipt while it counts as assigned.
 */
module LedgerReceipts {
  import opened PeriodKeys
  import opened Accrual
  import opened OwedLines
  import opened InvoiceLines
  import opened LedgerState
  import opened LedgerMoney
  import opened LedgerBooks
  import opened LedgerCredit
  import opened LedgerClaims

  // ---------- invariants ----------

  /** A key names one receipt of its actor, and a deposit's key is not used before the deposit. */
  predicate KeysOk(db: Db) {
    && (forall p, q :: 0 <= p < q < |db.payments| && db.payments[p].actor == db.payments[q].actor && db.payments[p].key != NoKey ==>
          db.payments[p].key != db.payments[q].key)
    && (forall p :: 0 <= p < |db.payments| && db.payments[p].key.DepositKey? ==> db.payments[p].key.deposit < db.nextDeposit)
  }

  predicate DepositOk(db: Db, d: Deposit) {
    && d.id < db.nextDeposit && d.amount > 0 && (d.kind.Withheld? <==> d.payment.Some?)
    && (d.payment.Some? ==>
          && d.payment.value < |db.payments| && db.payments[d.payment.value].key == DepositKey(d.id)
          && db.payments[d.payment.value].person == d.person && db.payments[d.payment.value].amount == d.amount)
  }

  predicate DepositRowsOk(db: Db) {
    && (forall k :: 0 <= k < |db.deposits| ==> DepositOk(db, db.deposits[k]))
    && DistinctDeposits(db.deposits)
  }

  ghost predicate DepositsOk(db: Db) {
    && DepositRowsOk(db)
    && (forall person :: Balance(db.deposits, db.payments, person) >= 0)
  }

  predicate StandsFor(db: Db, p: nat, t: nat)
    requires p < |db.payments|
  {
    !db.payments[p].reversed && db.payments[p].key.BankKey? && db.payments[p].key.tx == t
  }

  /** A standing bank receipt and its assigned transaction point at each other. */
  predicate BankOk(db: Db) {
    && (forall p :: 0 <= p < |db.payments| && !db.payments[p].reversed && db.payments[p].key.BankKey? ==>
          var t := db.payments[p].key.tx;
          t in db.bank && db.bank[t].status.Assigned? && db.bank[t].payment == Some(p))
    && (forall t :: t in db.bank && db.bank[t].payment.Some? ==>
          var p := db.bank[t].payment.value;
          p < |db.payments| && db.payments[p].key.BankKey? && db.payments[p].key.tx == t)
    && (forall t :: t in db.bank && db.bank[t].status.Assigned? ==>
          db.bank[t].payment.Some? && db.bank[t].payment.value < |db.payments|
          && !db.payments[db.bank[t].payment.value].reversed)
  }

  ghost predicate ReceiptsOk(db: Db) {
    KeysOk(db) && DepositsOk(db) && BankOk(db)
  }

  /** At most one standing receipt per bank transaction, and one exactly while it counts as assigned. */
  lemma OneReceiptPerTransaction(db: Db, t: nat)
    requires BankOk(db) && t in db.bank
    ensures forall p, q :: 0 <= p < |db.payments| && 0 <= q < |db.payments| && StandsFor(db, p, t) && StandsFor(db, q, t) ==> p == q
    ensures EffectiveStatus(db, db.bank[t]).Assigned? <==> exists p :: 0 <= p < |db.payments| && StandsFor(db, p, t)
  {
    if EffectiveStatus(db, db.bank[t]).Assigned? {
      assert StandsFor(db, db.bank[t].payment.value, t);
    }
  }

  // ---------- booking a receipt ----------

  /** What booking a receipt leaves behind: the receipt, and money moved onto invoices. */
  predicate BookedInto(db: Db, next: Db, pay: Payment) {
    PaidFrame(AddPayment(db, pay), next)
  }

  lemma RecordPaymentBooks(db: Db, req: Request, actor: nat, key: PaymentKey)
    requires MoneyOk(db)
    ensures var r := RecordPayment(db, req, actor, key);
      r.Paid? ==>
        && req.amount > 0 && r.payment == |db.payments| && FindKey(db, actor, key, |db.payments|).None?
        && MoneyOk(r.db) && BookedInto(db, r.db, Payment(req.person, req.amount, false, None, actor, key, req))
        && 0 <= r.unallocated <= req.amount && Free(r.db, r.payment) == r.unallocated
  {
    hide MoneyOk, IsOpenItem, BookLoop, OpenOldestFirst, FindKey;
    var r := RecordPayment(db, req, actor, key);
    if r.Paid? {
      var pay := Payment(req.person, req.amount, false, None, actor, key, req);
      var mid := AddPayment(db, pay);
      var ids := OpenOldestFirst(db, req.person);
      AddPaymentKeepsMoney(db, pay);
      OpenOldestFirstIsComplete(db, req.person);
      assert OpenItems(mid, req.person, ids) by { OpenItemsFrame(db, mid, req.person, ids); }
      hide OldestFirst, OpenItems;
      BookLoopKeepsMoney(mid, req.person, ids, |db.payments|, req.amount, Explicit(req.allocations), req.auto);
    }
  }

  lemma OpenItemsFrame(db: Db, next: Db, person: nat, ids: seq<nat>)
    requires OpenItems(db, person, ids) && next.invoices == db.invoices
    ensures OpenItems(next, person, ids)
  {
  }

  /** A payment books on the open items, oldest first, exactly what was asked for: all, the chosen parts, or nothing. */
  lemma PaymentBooksWhatWasAsked(db: Db, req: Request, actor: nat, key: PaymentKey)
    requires MoneyOk(db)
    ensures var r, ids, explicit := RecordPayment(db, req, actor, key), OpenOldestFirst(db, req.person), Explicit(req.allocations);
      r.Paid? ==>
        && OldestFirst(db, ids) && OpenItems(db, req.person, ids) && |r.db.invoices| == |db.invoices|
        && (forall i :: i in explicit ==> i in ids)
        && (forall i :: 0 <= i < |db.invoices| && i !in ids ==> r.db.invoices[i] == db.invoices[i])
        && (if explicit == map[] && !req.auto then r.db.invoices == db.invoices && r.unallocated == req.amount
            else Flows(db, r.db, explicit, ids, req.amount)
                 && r.unallocated == req.amount - Min(req.amount, SumWant(db, explicit, ids)))
  {
    hide MoneyOk, IsOpenItem, OpenOldestFirst, FindKey, Explicit;
    var r := RecordPayment(db, req, actor, key);
    if r.Paid? {
      var mid := AddPayment(db, Payment(req.person, req.amount, false, None, actor, key, req));
      var ids, explicit := OpenOldestFirst(db, req.person), Explicit(req.allocations);
      OpenOldestFirstIsComplete(db, req.person);
      if explicit != map[] || req.auto {
        hide BookLoop;
        OpenItemsFrame(db, mid, req.person, ids);
        PaymentFlows(mid, req.person, ids, |db.payments|, req.amount, explicit, req.auto);
        WantsAreOfInvoices(db, mid, r.db, explicit, ids, req.amount);
      }
    }
  }

  lemma WantsAreOfInvoices(db: Db, mid: Db, after: Db, explicit: map<nat, int>, ids: seq<nat>, amount: int)
    requires mid.invoices == db.invoices && |after.invoices| == |db.invoices|
    requires forall k :: 0 <= k < |ids| ==> ids[k] < |db.invoices|
    ensures SumWant(mid, explicit, ids) == SumWant(db, explicit, ids)
    ensures Flows(mid, after, explicit, ids, amount) ==> Flows(db, after, explicit, ids, amount)
  {
    forall k | 0 <= k <= |ids| ensures SumWant(mid, explicit, ids[..k]) == SumWant(db, explicit, ids[..k]) {
      SumWantFrame(mid, db, explicit, ids[..k]);
    }
    assert ids[..|ids|] == ids;
    hide SumWant;
  }

  /** An automatic payment books min(amount, total open) over exactly the open items, oldest first. */
  lemma AutomaticPayment(db: Db, req: Request, actor: nat, key: PaymentKey)
    requires MoneyOk(db) && req.auto && req.allocations == []
    ensures var r, ids := RecordPayment(db, req, actor, key), OpenOldestFirst(db, req.person);
      r.Paid? ==>
        && OldestFirst(db, ids) && OpenItems(db, req.person, ids)
        && |r.db.invoices| == |db.invoices| && Waterfall(db, r.db, ids, req.amount)
        && r.unallocated == req.amount - Min(req.amount, SumOpen(db, ids))
        && (forall i :: 0 <= i < |db.invoices| && i !in ids ==> r.db.invoices[i] == db.invoices[i])
  {
    hide MoneyOk, IsOpenItem, BookLoop, OpenOldestFirst, FindKey;
    var r := RecordPayment(db, req, actor, key);
    if r.Paid? {
      var mid := AddPayment(db, Payment(req.person, req.amount, false, None, actor, key, req));
      var ids := OpenOldestFirst(db, req.person);
      OpenOldestFirstIsComplete(db, req.person);
      OpenItemsFrame(db, mid, req.person, ids);
      AutoPaymentWaterfall(mid, req.person, ids, |db.payments|, req.amount);
      SumOpenFrame(db, mid, ids);
      forall k | 0 <= k <= |ids| ensures SumOpen(db, ids[..k]) == SumOpen(mid, ids[..k]) { SumOpenFrame(db, mid, ids[..k]); }
    }
  }

  // ---------- receipts and what does not depend on them ----------

  lemma BookedKeepsDocuments(db: Db, next: Db, pay: Payment)
    requires BookedInto(db, next, pay) && ClaimsOk(db)
    ensures ClaimsOk(next)
  {
    hide SourcesOk, StornosOk, NumbersOk, ChargesOk, Backed;
    DocumentsKeptKeepsClaims(db, next);
  }

  lemma MoneyMovedKeepsRest(db: Db, next: Db)
    requires PaidFrame(db, next)
    ensures ClaimsOk(db) ==> ClaimsOk(next)
    ensures ReceiptsOk(db) ==> ReceiptsOk(next)
  {
    hide SourcesOk, StornosOk, NumbersOk, ChargesOk, Backed, Balance;
    DocumentsKeptKeepsClaims(db, next);
  }

  lemma BookedKeepsKeys(db: Db, next: Db, pay: Payment)
    requires BookedInto(db, next, pay) && KeysOk(db) && FindKey(db, pay.actor, pay.key, |db.payments|).None?
    requires pay.key.DepositKey? ==> pay.key.deposit < db.nextDeposit
    ensures KeysOk(next)
  {
  }

  lemma {:induction false} BalanceFrame(deposits: seq<Deposit>, before: seq<Payment>, after: seq<Payment>, person: nat)
    requires forall k :: 0 <= k < |deposits| ==> Counts(deposits[k], before) == Counts(deposits[k], after)
    ensures Balance(deposits, before, person) == Balance(deposits, after, person)
  {
    hide Counts;
    if deposits != [] {
      BalanceFrame(deposits[..|deposits| - 1], before, after, person);
    }
  }

  lemma BookedKeepsDeposits(db: Db, next: Db, pay: Payment)
    requires BookedInto(db, next, pay) && DepositsOk(db)
    ensures DepositsOk(next)
  {
    hide Balance;
    forall k | 0 <= k < |db.deposits|
      ensures Counts(db.deposits[k], db.payments) == Counts(db.deposits[k], next.payments) && DepositOk(next, db.deposits[k])
    {
      assert DepositOk(db, db.deposits[k]);
    }
    forall person ensures Balance(next.deposits, next.payments, person) >= 0 {
      BalanceFrame(db.deposits, db.payments, next.payments, person);
    }
  }

  lemma BookedKeepsBank(db: Db, next: Db, pay: Payment)
    requires BookedInto(db, next, pay) && BankOk(db) && !pay.key.BankKey?
    ensures BankOk(next)
  {
  }

  // ---------- deposits ----------

  lemma AddDepositKeepsDeposits(db: Db, d: Deposit)
    requires DepositsOk(db) && d.id == db.nextDeposit && DepositOk(AddDeposit(db, d), d) && Counts(d, db.payments)
    requires Balance(db.deposits, db.payments, d.person) + Signed(d) >= 0
    ensures DepositsOk(AddDeposit(db, d))
  {
    var next := AddDeposit(db, d);
    assert next.deposits[..|next.deposits| - 1] == db.deposits;
    forall k | 0 <= k < |next.deposits| ensures DepositOk(next, next.deposits[k]) {
      if k < |db.deposits| { assert DepositOk(db, db.deposits[k]); }
    }
    hide DepositOk;
    forall person ensures Balance(next.deposits, next.payments, person) >= 0 {
      assert Balance(db.deposits, db.payments, person) >= 0;
    }
  }

  predicate DistinctDeposits(deposits: seq<Deposit>) {
    forall k, l :: 0 <= k < l < |deposits| ==> deposits[k].id != deposits[l].id
  }

  lemma {:induction false} DropDepositRows(deposits: seq<Deposit>, id: nat)
    requires DistinctDeposits(deposits)
    ensures DistinctDeposits(DropDeposit(deposits, id))
    ensures forall x :: x in DropDeposit(deposits, id) <==> x in deposits && x.id != id
    ensures FindDeposit(deposits, id).Some? ==>
      FindDeposit(deposits, id).value in deposits && FindDeposit(deposits, id).value.id == id
  {
    if deposits != [] {
      var n := |deposits| - 1;
      DropDepositRows(deposits[..n], id);
      var kept := DropDeposit(deposits[..n], id);
      assert deposits == deposits[..n] + [deposits[n]];
      forall k | 0 <= k < |kept| ensures kept[k].id != deposits[n].id { assert kept[k] in kept; }
    }
  }

  lemma {:induction false} DroppedDeposit(deposits: seq<Deposit>, payments: seq<Payment>, id: nat, person: nat)
    requires DistinctDeposits(deposits)
    ensures var d := FindDeposit(deposits, id);
      Balance(DropDeposit(deposits, id), payments, person)
         == Balance(deposits, payments, person)
            - (if d.Some? && d.value.person == person && Counts(d.value, payments) then Signed(d.value) else 0)
  {
    hide Counts, Signed;
    if deposits != [] {
      var n := |deposits| - 1;
      var d, rest := deposits[n], deposits[..n];
      if d.id == id {
        NotThereNotDropped(rest, id);
        assert rest + [] == rest;
      } else {
        DroppedDeposit(rest, payments, id, person);
        var kept := DropDeposit(rest, id);
        assert (kept + [d])[..|kept|] == kept;
      }
    }
  }

  lemma {:induction false} NotThereNotDropped(deposits: seq<Deposit>, id: nat)
    requires forall k :: 0 <= k < |deposits| ==> deposits[k].id != id
    ensures DropDeposit(deposits, id) == deposits && FindDeposit(deposits, id).None?
  {
    if deposits != [] {
      NotThereNotDropped(deposits[..|deposits| - 1], id);
      assert deposits == deposits[..|deposits| - 1] + [deposits[|deposits| - 1]];
    }
  }

  lemma DeleteDepositKeepsDeposits(db: Db, id: nat)
    requires DepositsOk(db)
    ensures DepositsOk(Apply(db, DeleteDeposit(db, id)))
  {
    hide Balance, DropDeposit, FindDeposit;
    DropDepositRows(db.deposits, id);
    var o := DeleteDeposit(db, id);
    if o.Committed? {
      var next := o.db;
      var d := FindDeposit(db.deposits, id).value;
      forall k | 0 <= k < |next.deposits| ensures DepositOk(next, next.deposits[k]) {
        assert next.deposits[k] in next.deposits;
        assert DepositOk(db, next.deposits[k]);
      }
      assert DepositOk(db, d);
      hide DepositOk;
      forall person ensures Balance(next.deposits, next.payments, person) >= 0 {
        DroppedDeposit(db.deposits, db.payments, id, person);
        assert Balance(db.deposits, db.payments, person) >= 0;
      }
    }
  }

  /** Reversing the receipt of a withheld deposit gives the money back to the deposit. */
  lemma {:induction false} ReversalRaisesBalance(db: Db, deposits: seq<Deposit>, p: nat, person: nat)
    requires p < |db.payments| && forall k :: 0 <= k < |deposits| ==> DepositOk(db, deposits[k])
    ensures Balance(deposits, db.payments[p := db.payments[p].(reversed := true)], person)
         >= Balance(deposits, db.payments, person)
  {
    if deposits != [] {
      ReversalRaisesBalance(db, deposits[..|deposits| - 1], p, person);
      assert DepositOk(db, deposits[|deposits| - 1]);
    }
  }
}
