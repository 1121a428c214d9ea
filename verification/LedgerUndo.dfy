/**
 What one transaction undoes of another: reversing a receipt takes back exactly what booking it
 did, deposits move the balance by exactly their amount and back, and settling an agreement's
 extras leaves none of them open.
 */
module LedgerUndo {
  import opened PeriodKeys
  import opened Accrual
  import opened OwedLines
  import opened InvoiceLines
  import opened LedgerState
  import opened LedgerMoney
  import opened LedgerBooks
  import opened LedgerCredit
  import opened LedgerClaims
  import opened LedgerReceipts
  import opened LedgerRuns

  // ---------- reversal undoes booking ----------

  /** The loop adds links of its own receipt only. */
  lemma {:induction false} LoopLinksAreItsOwn(
    db: Db, ids: seq<nat>, p: nat, remaining: int, explicit: map<nat, int>, auto: bool)
    requires forall k :: 0 <= k < |ids| ==> ids[k] < |db.invoices|
    ensures DropPayment(BookLoop(db, ids, p, remaining, explicit, auto).db.links, p) == DropPayment(db.links, p)
    decreases |ids|
  {
    if ids == [] || remaining <= 0 || (explicit == map[] && !auto) {
    } else {
      var share := ShareOf(OpenAmount(db, ids[0]), remaining, explicit, ids[0]);
      if share <= 0 {
        LoopLinksAreItsOwn(db, ids[1..], p, remaining, explicit, auto);
      } else {
        var next := AddLink(db, ids[0], p, share);
        LoopLinksAreItsOwn(next, ids[1..], p, remaining - share, explicit, auto);
        assert next.links[..|next.links| - 1] == db.links;
      }
    }
  }

  lemma {:induction false} NothingToDrop(links: seq<Link>, p: nat)
    requires forall k :: 0 <= k < |links| ==> links[k].payment != p
    ensures DropPayment(links, p) == links
  {
    if links != [] {
      NothingToDrop(links[..|links| - 1], p);
      assert links == links[..|links| - 1] + [links[|links| - 1]];
    }
  }

  lemma {:induction false} NoAllocsToDrop(allocs: seq<Alloc>, p: nat)
    requires forall k :: 0 <= k < |allocs| ==> allocs[k].payment != p
    ensures DropAllocs(allocs, p) == allocs
  {
    if allocs != [] {
      NoAllocsToDrop(allocs[..|allocs| - 1], p);
      assert allocs == allocs[..|allocs| - 1] + [allocs[|allocs| - 1]];
    }
  }

  lemma {:induction false} NothingToUnstamp(db: Db, p: nat, n: nat)
    requires n <= |db.charges| && forall k :: 0 <= k < |db.allocs| ==> db.allocs[k].payment != p
    ensures Unstamp(db, p, n) == db.charges[..n]
  {
    if n > 0 {
      NothingToUnstamp(db, p, n - 1);
      assert db.charges[..n] == db.charges[..n - 1] + [db.charges[n - 1]];
    }
  }

  /** Taking a receipt's links back leaves each document with the paid amount of the other links. */
  lemma LinksTakenBack(db: Db, next: Db, p: nat)
    requires MoneyOk(db) && MoneyOk(next) && |next.invoices| == |db.invoices|
    requires forall i :: 0 <= i < |db.invoices| ==> next.invoices[i] == db.invoices[i].(paid := next.invoices[i].paid)
    requires DropPayment(next.links, p) == db.links
    ensures GiveBack(next.invoices, next.links, p) == db.invoices
  {
    hide GiveBack, DropPayment, LinkOk, UsedOk, AllocRowsOk;
    forall i | 0 <= i < |db.invoices| ensures GiveBack(next.invoices, next.links, p)[i] == db.invoices[i] {
      ReversalOfInvoices(next, p, i);
    }
  }

  /** The row of a receipt that `req` books. */
  function ReceiptOf(req: Request, actor: nat, key: PaymentKey, reversed: bool): Payment {
    Payment(req.person, req.amount, reversed, None, actor, key, req)
  }

  /** What reversal needs of a state with one new receipt: only its own links, and nothing that points at it. */
  lemma NewReceiptTakenBack(db: Db, next: Db, req: Request, actor: nat, key: PaymentKey)
    requires MoneyOk(db) && MoneyOk(next) && BookedInto(db, next, ReceiptOf(req, actor, key, false))
    requires DropPayment(next.links, |db.payments|) == db.links
    ensures ReversePayment(next, |db.payments|)
         == Committed(db.(payments := db.payments + [ReceiptOf(req, actor, key, true)],
                          bank := Reopen(db.bank, |db.payments|)))
  {
    var p := |db.payments|;
    hide GiveBack, DropPayment, Unstamp, DropAllocs, Reopen;
    LinksTakenBack(db, next, p);
    hide LinkOk, Used, Linked;
    forall k | 0 <= k < |next.allocs| ensures next.allocs[k].payment != p { assert db.allocs[k].payment < p; }
    hide MoneyOk;
    NoAllocsToDrop(next.allocs, p);
    NothingToUnstamp(next, p, |next.charges|);
    assert next.charges[..|next.charges|] == next.charges;
    assert next.payments[p := next.payments[p].(reversed := true)] == db.payments + [ReceiptOf(req, actor, key, true)];
  }

  lemma OwnLinksOnly(db: Db, req: Request, actor: nat, key: PaymentKey)
    requires MoneyOk(db) && RecordPayment(db, req, actor, key).Paid?
    ensures DropPayment(RecordPayment(db, req, actor, key).db.links, |db.payments|) == db.links
  {
    hide BookLoop, OpenOldestFirst, FindKey, Explicit, DropPayment;
    var p := |db.payments|;
    LoopLinksAreItsOwn(AddPayment(db, ReceiptOf(req, actor, key, false)), OpenOldestFirst(db, req.person), p,
                       req.amount, Explicit(req.allocations), req.auto);
    forall k | 0 <= k < |db.links| ensures db.links[k].payment != p { assert LinkOk(db, db.links[k]); }
    NothingToDrop(db.links, p);
  }

  /** Reversing a receipt undoes booking it: every other row is as it was, only the reversed receipt remains. */
  lemma ReversalUndoesPayment(db: Db, req: Request, actor: nat, key: PaymentKey)
    requires Valid(db) && RecordPayment(db, req, actor, key).Paid?
    ensures var r := RecordPayment(db, req, actor, key);
      ReversePayment(r.db, r.payment)
        == Committed(db.(payments := db.payments + [ReceiptOf(req, actor, key, true)]))
  {
    hide MoneyOk, ClaimsOk, KeysOk, DepositsOk, RecordPayment, ReversePayment;
    RecordPaymentBooks(db, req, actor, key);
    OwnLinksOnly(db, req, actor, key);
    NewReceiptTakenBack(db, RecordPayment(db, req, actor, key).db, req, actor, key);
    assert Reopen(db.bank, |db.payments|) == db.bank;
  }

  /** A reversed assignment puts the transaction back among the open ones, ready to be assigned again. */
  lemma ReversalUndoesAssignment(db: Db, tx: nat, target: Target, actor: nat)
    requires Valid(db) && AssignBank(db, tx, target, actor).Committed?
    ensures var o := ReversePayment(AssignBank(db, tx, target, actor).db, |db.payments|);
      && o.Committed? && tx in db.bank && |o.db.payments| == |db.payments| + 1
      && o.db == db.(payments := o.db.payments,
                     bank := db.bank[tx := db.bank[tx].(status := Open, payment := Some(|db.payments|), person := None)])
      && o.db.payments[..|db.payments|] == db.payments
      && Unresolved(o.db, o.db.bank[tx], Open)
  {
    hide MoneyOk, ClaimsOk, KeysOk, DepositsOk, RecordPayment, ReversePayment;
    var t, p := db.bank[tx], |db.payments|;
    var person := if target.ToInvoice? then db.invoices[target.invoice].person else target.person;
    var allocations := if target.ToInvoice?
      then [(target.invoice, Min(t.amount, OpenAmount(db, target.invoice)))] else [];
    var req, key := Request(person, t.amount, false, allocations), BankKey(tx, t.payment);
    var r := RecordPayment(db, req, actor, key);
    RecordPaymentBooks(db, req, actor, key);
    if r.Replayed? {
      ReplayHasKey(db, req, actor, key);
      ReplayIsRefused(db, tx, r.payment);
    }
    assert r.Paid?;
    OwnLinksOnly(db, req, actor, key);
    var rows := db.bank[tx := t.(status := Assigned, payment := Some(p), person := Some(person))];
    var mid, next := db.(bank := rows), r.db.(bank := rows);
    MoneyFrame(db, mid);
    MoneyFrame(r.db, next);
    NewReceiptTakenBack(mid, next, req, actor, key);
    assert Reopen(rows, p) == db.bank[tx := t.(status := Open, payment := Some(p), person := None)];
  }

  // ---------- deposits move the balance and back ----------

  lemma NewDepositBalance(deposits: seq<Deposit>, d: Deposit, payments: seq<Payment>, person: nat)
    ensures Balance(deposits + [d], payments, person)
         == Balance(deposits, payments, person) + (if d.person == person && Counts(d, payments) then Signed(d) else 0)
  {
    assert (deposits + [d])[..|deposits|] == deposits;
  }

  /** A receipt nobody's deposit refers to does not count for any balance. */
  lemma UnrelatedReceipt(db: Db, payments: seq<Payment>, person: nat)
    requires DepositsOk(db) && |payments| >= |db.payments| && payments[..|db.payments|] == db.payments
    ensures Balance(db.deposits, payments, person) == Balance(db.deposits, db.payments, person)
  {
    forall k | 0 <= k < |db.deposits| ensures Counts(db.deposits[k], db.payments) == Counts(db.deposits[k], payments) {
      assert DepositOk(db, db.deposits[k]);
      if db.deposits[k].payment.Some? {
        assert payments[..|db.payments|][db.deposits[k].payment.value] == db.payments[db.deposits[k].payment.value];
      }
    }
    BalanceFrame(db.deposits, db.payments, payments, person);
  }

  /** A deposit booking moves its person's balance by exactly its amount, and nobody else's. */
  lemma DepositMovesBalance(db: Db, person: nat, known: bool, kind: DepositKind, amount: int, actor: nat, q: nat)
    requires Valid(db) && CreateDeposit(db, person, known, kind, amount, actor).Committed?
    ensures var next := CreateDeposit(db, person, known, kind, amount, actor).db;
      Balance(next.deposits, next.payments, q)
        == Balance(db.deposits, db.payments, q)
           + (if q != person then 0 else if kind.Received? then amount else -amount)
  {
    hide MoneyOk, ClaimsOk, KeysOk, BankOk, DepositsOk, RecordPayment, Balance, FindKey;
    var req, key := Request(person, amount, true, []), DepositKey(db.nextDeposit);
    if kind.Withheld? {
      var r := RecordPayment(db, req, actor, key);
      RecordPaymentBooks(db, req, actor, key);
      WithholdingIsNew(db, req, actor);
      UnrelatedReceipt(db, r.db.payments, q);
      NewDepositBalance(db.deposits, Deposit(db.nextDeposit, person, kind, amount, Some(r.payment)), r.db.payments, q);
    } else {
      NewDepositBalance(db.deposits, Deposit(db.nextDeposit, person, kind, amount, None), db.payments, q);
    }
  }

  /** The key of a new deposit was never used, so withholding books a new receipt. */
  lemma WithholdingIsNew(db: Db, req: Request, actor: nat)
    requires KeysOk(db)
    ensures !RecordPayment(db, req, actor, DepositKey(db.nextDeposit)).Replayed?
  {
    DepositKeyIsNew(db, actor);
    hide FindKey, OpenOldestFirst, BookLoop, Explicit;
  }

  /** Deleting a deposit that kept no receipt undoes booking it; its id is not used again. */
  lemma DeletionUndoesDeposit(db: Db, person: nat, known: bool, kind: DepositKind, amount: int, actor: nat)
    requires Valid(db) && !kind.Withheld? && CreateDeposit(db, person, known, kind, amount, actor).Committed?
    ensures DeleteDeposit(CreateDeposit(db, person, known, kind, amount, actor).db, db.nextDeposit)
         == Committed(db.(nextDeposit := db.nextDeposit + 1))
  {
    hide MoneyOk, ClaimsOk, KeysOk, BankOk, DepositsOk, RecordPayment, Balance, FindDeposit, DropDeposit;
    var d := Deposit(db.nextDeposit, person, kind, amount, None);
    NewDepositBalance(db.deposits, d, db.payments, person);
    assert Balance(db.deposits, db.payments, person) >= 0 by { NeverNegative(db, person); }
    NewestFoundAndDropped(db, d);
  }

  lemma NeverNegative(db: Db, person: nat)
    requires DepositsOk(db)
    ensures Balance(db.deposits, db.payments, person) >= 0
  {
    hide DepositRowsOk;
  }

  lemma NewestFoundAndDropped(db: Db, d: Deposit)
    requires DepositsOk(db) && d.id == db.nextDeposit
    ensures FindDeposit(db.deposits + [d], d.id) == Some(d) && DropDeposit(db.deposits + [d], d.id) == db.deposits
  {
    hide Balance;
    var deposits := db.deposits + [d];
    assert deposits[..|deposits| - 1] == db.deposits;
    forall k | 0 <= k < |db.deposits| ensures db.deposits[k].id != db.nextDeposit { assert DepositOk(db, db.deposits[k]); }
    NotThereNotDropped(db.deposits, db.nextDeposit);
    assert db.deposits + [] == db.deposits;
  }

  /** Reversing the receipt of a withheld deposit restores the books and gives exactly its amount back. */
  lemma ReversalUndoesWithholding(db: Db, person: nat, known: bool, amount: int, actor: nat, q: nat)
    requires Valid(db) && CreateDeposit(db, person, known, Withheld, amount, actor).Committed?
    ensures var o := ReversePayment(CreateDeposit(db, person, known, Withheld, amount, actor).db, |db.payments|);
      && o.Committed? && o.db.invoices == db.invoices && o.db.links == db.links
      && Balance(o.db.deposits, o.db.payments, q) == Balance(db.deposits, db.payments, q)
  {
    hide MoneyOk, ClaimsOk, KeysOk, BankOk, DepositsOk, RecordPayment, ReversePayment, Balance;
    var req, key := Request(person, amount, true, []), DepositKey(db.nextDeposit);
    var p, d := |db.payments|, Deposit(db.nextDeposit, person, Withheld, amount, Some(|db.payments|));
    var r := RecordPayment(db, req, actor, key);
    RecordPaymentBooks(db, req, actor, key);
    WithholdingIsNew(db, req, actor);
    OwnLinksOnly(db, req, actor, key);
    var deposits := db.deposits + [d];
    var mid, next := AddDeposit(db, d), AddDeposit(r.db, d);
    MoneyFrame(db, mid);
    MoneyFrame(r.db, next);
    NewReceiptTakenBack(mid, next, req, actor, key);
    var payments := db.payments + [ReceiptOf(req, actor, key, true)];
    UnrelatedReceipt(db, payments, q);
    NewDepositBalance(db.deposits, d, payments, q);
  }

  // ---------- extras ----------

  lemma {:induction false} EveryExtraGetsItsRow(db: Db, person: nat, covered: set<nat>, p: nat, n: nat, m: nat)
    requires m < n <= |db.charges| && IsOpenExtra(db, person, covered, db.charges[m])
    ensures var c := db.charges[m];
      Alloc(c.id, p, ChargeTotal(c.amount, c.quantity)) in ExtraAllocs(db, person, covered, p, n)
    ensures SumAllocs(ExtraAllocs(db, person, covered, p, n)) > 0
  {
    hide ChargeTotal;
    var before := ExtraAllocs(db, person, covered, p, n - 1);
    ExtrasSumUp(db, person, covered, p, n - 1);
    ExtrasSumUp(db, person, covered, p, n);
    if m < n - 1 {
      EveryExtraGetsItsRow(db, person, covered, p, n - 1, m);
      var after := ExtraAllocs(db, person, covered, p, n);
      if IsOpenExtra(db, person, covered, db.charges[n - 1]) {
        assert after[..|after| - 1] == before;
      } else {
        assert after == before + [] == before;
      }
    } else {
      var after := ExtraAllocs(db, person, covered, p, n);
      assert after[..|after| - 1] == before;
    }
  }

  lemma ExtrasSumUp(db: Db, person: nat, covered: set<nat>, p: nat, n: nat)
    requires n <= |db.charges|
    ensures SumAllocs(ExtraAllocs(db, person, covered, p, n)) >= 0
  {
    ExtraAllocsSum(db, person, covered, p, n, p);
    AllocSumNonnegative(ExtraAllocs(db, person, covered, p, n), p);
  }

  /** After settling, every extra that was open carries an allocation of its full amount and none is open. */
  lemma SettlingLeavesNoneOpen(db: Db, person: nat, agreement: nat, covered: set<nat>, actor: nat, m: nat)
    requires m < |db.charges|
    ensures var next := SettleExtras(db, person, agreement, covered, actor);
      && |next.charges| == |db.charges| && !IsOpenExtra(next, person, covered, next.charges[m])
      && (IsOpenExtra(db, person, covered, db.charges[m]) ==>
            var c := db.charges[m];
            next.charges[m] == c.(paid := true)
            && Alloc(c.id, |db.payments|, ChargeTotal(c.amount, c.quantity)) in next.allocs)
      && (!IsOpenExtra(db, person, covered, db.charges[m]) ==> next.charges[m] == db.charges[m])
  {
    var p, n := |db.payments|, |db.charges|;
    var next := SettleExtras(db, person, agreement, covered, actor);
    hide ExtraAllocs, SumAllocs, ChargeTotal;
    if IsOpenExtra(db, person, covered, db.charges[m]) {
      EveryExtraGetsItsRow(db, person, covered, p, n, m);
    } else if next != db {
      forall k | 0 <= k < |db.allocs| ensures next.allocs[k] == db.allocs[k] { }
    }
  }
}
