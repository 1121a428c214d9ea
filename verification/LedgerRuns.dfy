/**
 Runs: whatever sequence of transactions commits, the books balance, positions have one owner,
 charges stay as billed, deposits stay covered and bank transactions have one receipt.
 */
module LedgerRuns {
  import opened PeriodKeys
  import opened Accrual
  import opened OwedLines
  import opened InvoiceLines
  import opened LedgerState
  import opened LedgerMoney
  import opened LedgerBooks
  import opened LedgerCredit
  import opened LedgerClaims
  import opened LedgerReceipts

  ghost predicate Valid(db: Db) {
    MoneyOk(db) && ClaimsOk(db) && ReceiptsOk(db)
  }

  /** A fresh installation, numbering from 1. */
  function Empty(): Db {
    Db(1, "", 4, [], [], [], [], map[], [], 0, [], 0, map[])
  }

  lemma EmptyIsValid()
    ensures Valid(Empty())
  {
    hide MoneyOk, ClaimsOk;
    EmptyBalances();
    EmptyHasNoClaims();
  }

  lemma EmptyHasNoClaims()
    ensures ClaimsOk(Empty())
  {
    hide Backed, Negated;
  }

  lemma EmptyBalances()
    ensures MoneyOk(Empty())
  {
  }

  // ---------- frames ----------

  lemma ReceiptsFrame(db: Db, next: Db)
    requires next.payments == db.payments && next.deposits == db.deposits
    requires next.nextDeposit == db.nextDeposit && next.bank == db.bank
    ensures ReceiptsOk(db) ==> ReceiptsOk(next)
  {
    hide Balance;
  }

  lemma MoneyFrame(db: Db, next: Db)
    requires next.invoices == db.invoices && next.payments == db.payments && next.links == db.links && next.allocs == db.allocs
    ensures MoneyOk(db) ==> MoneyOk(next)
  {
    if MoneyOk(db) {
      forall k | 0 <= k < |next.links| ensures LinkOk(next, next.links[k]) { assert LinkOk(db, db.links[k]); }
      forall p | 0 <= p < |next.payments| ensures 0 <= Used(next, p) <= next.payments[p].amount {
        assert Used(next, p) == Used(db, p);
      }
      hide Used, Linked;
    }
  }

  lemma ClaimsFrame(db: Db, next: Db)
    requires next.invoices == db.invoices && next.payments == db.payments && next.allocs == db.allocs
    requires next.charges == db.charges && next.nextCharge == db.nextCharge
    requires next.sources == db.sources && next.nextNo == db.nextNo
    ensures ClaimsOk(db) ==> ClaimsOk(next)
  {
    hide SourcesOk, StornosOk, NumbersOk, ChargesOk, Backed;
    DocumentsKeptKeepsClaims(db, next);
  }

  // ---------- documents and receipts ----------

  lemma CreateInvoiceKeepsValid(
    db: Db, person: nat, known: bool, acc: Accounts, rate: nat, parts: Particulars, asOf: nat)
    requires Valid(db)
    ensures Valid(Apply(db, CreateInvoice(db, person, known, acc, rate, parts, asOf)))
  {
    CreateInvoiceKeepsMoney(db, person, known, acc, rate, parts, asOf);
    CreateInvoiceKeepsClaims(db, person, known, acc, rate, parts, asOf);
    hide MoneyOk, ClaimsOk, ReceiptsOk, OpenLines, Claimed, NumberIsTaken, LockAll, Gross;
    ReceiptsFrame(db, Apply(db, CreateInvoice(db, person, known, acc, rate, parts, asOf)));
  }

  lemma CancelInvoiceKeepsValid(db: Db, id: nat, asOf: nat)
    requires Valid(db)
    ensures Valid(Apply(db, CancelInvoice(db, id, asOf)))
  {
    CancelInvoiceKeepsMoney(db, id, asOf);
    CancelInvoiceKeepsClaims(db, id, asOf);
    hide MoneyOk, ClaimsOk, ReceiptsOk, NumberIsTaken, Negated, DropInvoice;
    ReceiptsFrame(db, Apply(db, CancelInvoice(db, id, asOf)));
  }

  lemma SaveSettingsKeepsValid(db: Db, n: int, prefix: string, pad: int)
    requires Valid(db)
    ensures Valid(SaveSettings(db, n, prefix, pad))
  {
    var next := SaveSettings(db, n, prefix, pad);
    assert db.nextNo <= next.nextNo;
    assert ClaimsOk(next) by {
      hide StornosOk, Negated, Backed, MoneyOk, ReceiptsOk, DistinctPositions, Positions;
      StornosFrame(db, next.(nextNo := db.nextNo));
      SourcesFrame(db, next.(nextNo := db.nextNo));
      ChargesFrame(db, next.(nextNo := db.nextNo));
      SettingsKeepDocuments(db, next);
    }
    hide ClaimsOk;
    MoneyFrame(db, next);
    ReceiptsFrame(db, next);
  }

  lemma SettingsKeepDocuments(db: Db, next: Db)
    requires ClaimsOk(db) && next == db.(nextNo := next.nextNo, prefix := next.prefix, pad := next.pad)
    requires db.nextNo <= next.nextNo
    ensures ClaimsOk(next)
  {
    hide Negated, Backed, DistinctPositions, Positions;
    forall p | p in next.sources ensures Owns(next, next.sources[p], p) { assert Owns(db, db.sources[p], p); }
  }

  lemma PayKeepsValid(db: Db, req: Request, actor: nat, key: PaymentKey)
    requires Valid(db) && (key.NoKey? || key.ClientKey?)
    ensures Valid(Apply(db, PayInvoices(db, req, actor, key)))
  {
    RecordPaymentBooks(db, req, actor, key);
    var r := RecordPayment(db, req, actor, key);
    if r.Paid? {
      var pay := Payment(req.person, req.amount, false, None, actor, key, req);
      hide RecordPayment, BookedInto, MoneyOk, ClaimsOk, KeysOk, DepositsOk, BankOk;
      BookedKeepsDocuments(db, r.db, pay);
      BookedKeepsKeys(db, r.db, pay);
      BookedKeepsDeposits(db, r.db, pay);
      BookedKeepsBank(db, r.db, pay);
    }
  }

  lemma ApplyCreditKeepsValid(db: Db, person: nat)
    requires Valid(db)
    ensures Valid(ApplyCredit(db, person))
  {
    ApplyCreditSweeps(db, person);
    hide ApplyCredit, MoneyOk, ClaimsOk, ReceiptsOk, SumOpen, SumFree, Used;
    MoneyMovedKeepsRest(db, ApplyCredit(db, person));
  }

  // ---------- extras ----------

  predicate SameRow(a: ChargeRow, b: ChargeRow) {
    b == a.(paid := b.paid, on := b.on)
  }

  predicate SameRows(a: seq<ChargeRow>, b: seq<ChargeRow>) {
    |a| == |b| && forall k :: 0 <= k < |a| ==> SameRow(a[k], b[k])
  }

  lemma BackedFrame(a: seq<ChargeRow>, b: seq<ChargeRow>, id: nat, amount: int)
    requires SameRows(a, b) && Backed(a, id, amount)
    ensures Backed(b, id, amount)
  {
    hide ChargeTotal;
    var m :| 0 <= m < |a| && a[m].id == id && ChargeTotal(a[m].amount, a[m].quantity) == amount;
    assert SameRow(a[m], b[m]);
  }

  /** Paid flags and dates of charges do not matter to what is billed. */
  lemma FlagsKeepClaims(db: Db, next: Db)
    requires ClaimsOk(db) && SameRows(db.charges, next.charges) && next == db.(charges := next.charges)
    ensures ClaimsOk(next)
  {
    hide SourcesOk, StornosOk, NumbersOk, Backed;
    DocumentsKeptKeepsClaims(db, next);
    forall it | BackedLine(db.charges, it) ensures BackedLine(next.charges, it) {
      if it.position.kind.OneOffCharge? { BackedFrame(db.charges, next.charges, it.position.ref, it.amount); }
    }
    forall id, amount | Backed(db.charges, id, amount) ensures Backed(next.charges, id, amount) {
      BackedFrame(db.charges, next.charges, id, amount);
    }
    forall m | 0 <= m < |db.charges| ensures next.charges[m].id == db.charges[m].id { assert SameRow(db.charges[m], next.charges[m]); }
    hide BackedLine;
  }

  /** An allocation of the extras receipt `p`: an open, unclaimed, uninvoiced charge at its amount. */
  predicate ExtraRow(db: Db, p: nat, a: Alloc) {
    && a.payment == p && !Claimed(db, a.charge) && Position(OneOffCharge, a.charge, "") !in db.sources
    && Backed(db.charges, a.charge, a.amount)
  }

  predicate DistinctCharges(allocs: seq<Alloc>) {
    forall k, l :: 0 <= k < l < |allocs| ==> allocs[k].charge != allocs[l].charge
  }

  lemma {:induction false} ExtraAllocsRows(db: Db, person: nat, covered: set<nat>, p: nat, n: nat)
    requires n <= |db.charges| && ChargeIdsOk(db)
    ensures DistinctCharges(ExtraAllocs(db, person, covered, p, n))
    ensures forall a :: a in ExtraAllocs(db, person, covered, p, n) ==>
      ExtraRow(db, p, a) && exists m :: 0 <= m < n && db.charges[m].id == a.charge
  {
    hide Claimed, ChargeTotal;
    if n > 0 {
      ExtraAllocsRows(db, person, covered, p, n - 1);
      var before, c := ExtraAllocs(db, person, covered, p, n - 1), db.charges[n - 1];
      forall k | 0 <= k < |before| ensures before[k].charge != c.id { assert before[k] in before; }
      if IsOpenExtra(db, person, covered, c) {
        assert Backed(db.charges, c.id, ChargeTotal(c.amount, c.quantity));
        assert ExtraRow(db, p, Alloc(c.id, p, ChargeTotal(c.amount, c.quantity)));
      }
      hide ExtraRow, IsOpenExtra;
    }
  }

  lemma ExtrasKeepAllocs(db: Db, next: Db, allocs: seq<Alloc>, pay: Payment)
    requires AllocsOk(db) && next.allocs == db.allocs + allocs && next.sources == db.sources && next.charges == db.charges
    requires next.payments == db.payments + [pay] && !pay.reversed
    requires DistinctCharges(allocs) && forall a :: a in allocs ==> ExtraRow(db, |db.payments|, a)
    ensures AllocsOk(next)
  {
    hide Backed;
    forall k | 0 <= k < |allocs| ensures ExtraRow(db, |db.payments|, allocs[k]) { assert allocs[k] in allocs; }
    forall k, l | 0 <= k < l < |next.allocs| ensures next.allocs[k].charge != next.allocs[l].charge {
      if k < |db.allocs| <= l { assert ExtraRow(db, |db.payments|, allocs[l - |db.allocs|]); }
    }
  }

  lemma SettleExtrasKeepsClaims(db: Db, person: nat, agreement: nat, covered: set<nat>, actor: nat)
    requires ClaimsOk(db)
    ensures ClaimsOk(SettleExtras(db, person, agreement, covered, actor))
  {
    var n := |db.charges|;
    var next := SettleExtras(db, person, agreement, covered, actor);
    var allocs := ExtraAllocs(db, person, covered, |db.payments|, n);
    hide IsOpenExtra, SumAllocs, ExtraAllocs;
    if next != db {
      var mid := next.(charges := db.charges);
      assert ClaimsOk(mid) by {
        ExtraAllocsRows(db, person, covered, |db.payments|, n);
        hide ExtraRow, DistinctCharges, SourcesOk, StornosOk, NumbersOk, ChargesOk, AllocsOk;
        ExtrasKeepAllocs(db, mid, allocs, mid.payments[|db.payments|]);
        DocumentsKeptKeepsClaims(db, mid);
      }
      hide ClaimsOk;
      FlagsKeepClaims(mid, next);
    }
  }

  lemma SettleExtrasKeepsReceipts(db: Db, person: nat, agreement: nat, covered: set<nat>, actor: nat)
    requires ReceiptsOk(db)
    ensures ReceiptsOk(SettleExtras(db, person, agreement, covered, actor))
  {
    var next := SettleExtras(db, person, agreement, covered, actor);
    hide IsOpenExtra, SumAllocs, ExtraAllocs, MarkExtras;
    if next != db {
      var pay := next.payments[|db.payments|];
      var mid := AddPayment(db, pay);
      hide KeysOk, DepositsOk, BankOk;
      BookedKeepsKeys(db, mid, pay);
      BookedKeepsDeposits(db, mid, pay);
      BookedKeepsBank(db, mid, pay);
      ReceiptsFrame(mid, next);
    }
  }

  // ---------- deposits ----------

  lemma CreateDepositKeepsValid(db: Db, person: nat, known: bool, kind: DepositKind, amount: int, actor: nat)
    requires Valid(db)
    ensures Valid(Apply(db, CreateDeposit(db, person, known, kind, amount, actor)))
  {
    var o := CreateDeposit(db, person, known, kind, amount, actor);
    hide MoneyOk, ClaimsOk, Balance, BankOk;
    assert Balance(db.deposits, db.payments, person) >= 0;
    if o.Committed? && kind.Withheld? {
      hide DepositsOk;
      var req, key := Request(person, amount, true, []), DepositKey(db.nextDeposit);
      var r := RecordPayment(db, req, actor, key);
      RecordPaymentBooks(db, req, actor, key);
      DepositKeyIsNew(db, actor);
      WithheldKeepsValid(db, req, actor, r);
    } else if o.Committed? {
      var d := Deposit(db.nextDeposit, person, kind, amount, None);
      AddDepositKeepsDeposits(db, d);
      MoneyFrame(db, o.db);
      ClaimsFrame(db, o.db);
      assert BankOk(o.db) by { BankFrame(db, o.db); }
    }
  }

  lemma BankFrame(db: Db, next: Db)
    requires BankOk(db) && next.bank == db.bank && next.payments == db.payments
    ensures BankOk(next)
  {
  }

  /** The key of the next deposit was never used, so withholding always books a new receipt. */
  lemma DepositKeyIsNew(db: Db, actor: nat)
    requires KeysOk(db)
    ensures FindKey(db, actor, DepositKey(db.nextDeposit), |db.payments|).None?
  {
  }

  lemma WithheldKeepsValid(db: Db, req: Request, actor: nat, r: PayOutcome)
    requires Valid(db) && r.Paid? && req.amount > 0 && MoneyOk(r.db) && r.payment == |db.payments|
    requires req.amount <= Balance(db.deposits, db.payments, req.person)
    requires BookedInto(db, r.db, Payment(req.person, req.amount, false, None, actor, DepositKey(db.nextDeposit), req))
    requires FindKey(db, actor, DepositKey(db.nextDeposit), |db.payments|).None?
    ensures Valid(AddDeposit(r.db, Deposit(db.nextDeposit, req.person, Withheld, req.amount, Some(r.payment))))
  {
    var pay := Payment(req.person, req.amount, false, None, actor, DepositKey(db.nextDeposit), req);
    var d := Deposit(db.nextDeposit, req.person, Withheld, req.amount, Some(r.payment));
    var next := AddDeposit(r.db, d);
    hide MoneyOk, ClaimsOk, Balance, DepositsOk, BankOk, FindKey, KeysOk;
    BookedKeepsDocuments(db, r.db, pay);
    BookedKeepsDeposits(db, r.db, pay);
    BookedKeepsBank(db, r.db, pay);
    assert Balance(r.db.deposits, r.db.payments, req.person) >= req.amount by { BookedKeepsBalance(db, r.db, pay, req.person); }
    MoneyFrame(r.db, next);
    ClaimsFrame(r.db, next);
    BankFrame(r.db, next);
    AddDepositKeepsDeposits(r.db, d);
    var mid := db.(nextDeposit := db.nextDeposit + 1);
    assert KeysOk(next) by {
      assert KeysOk(mid) by { KeysLater(db); }
      FindKeyFrame(db, mid, actor, pay.key, |db.payments|);
      BookedKeepsKeys(mid, next.(deposits := db.deposits), pay);
      KeysFrame(next.(deposits := db.deposits), next);
    }
  }

  lemma KeysLater(db: Db)
    requires KeysOk(db)
    ensures KeysOk(db.(nextDeposit := db.nextDeposit + 1))
  {
  }

  lemma KeysFrame(db: Db, next: Db)
    requires KeysOk(db) && next.payments == db.payments && next.nextDeposit == db.nextDeposit
    ensures KeysOk(next)
  {
  }

  lemma FindKeyFrame(db: Db, next: Db, actor: nat, key: PaymentKey, n: nat)
    requires next.payments == db.payments && n <= |db.payments| && FindKey(db, actor, key, n).None?
    ensures FindKey(next, actor, key, n).None?
  {
  }

  lemma BookedKeepsBalance(db: Db, next: Db, pay: Payment, person: nat)
    requires BookedInto(db, next, pay) && DepositsOk(db)
    ensures Balance(next.deposits, next.payments, person) == Balance(db.deposits, db.payments, person)
  {
    hide Balance;
    forall k | 0 <= k < |db.deposits| ensures Counts(db.deposits[k], db.payments) == Counts(db.deposits[k], next.payments) {
      assert DepositOk(db, db.deposits[k]);
    }
    BalanceFrame(db.deposits, db.payments, next.payments, person);
  }

  lemma DeleteDepositKeepsValid(db: Db, id: nat)
    requires Valid(db)
    ensures Valid(Apply(db, DeleteDeposit(db, id)))
  {
    var next := Apply(db, DeleteDeposit(db, id));
    hide MoneyOk, ClaimsOk, BankOk, KeysOk, DepositsOk, Balance, DropDeposit, FindDeposit;
    DeleteDepositKeepsDeposits(db, id);
    MoneyFrame(db, next);
    ClaimsFrame(db, next);
    BankFrame(db, next);
    KeysFrame(db, next);
  }

  // ---------- reversal ----------

  lemma {:induction false} GiveBackKeepsDocuments(invoices: seq<Invoice>, links: seq<Link>, p: nat)
    ensures forall i :: 0 <= i < |invoices| ==> SameDocument(invoices[i], GiveBack(invoices, links, p)[i])
  {
    if links != [] {
      GiveBackKeepsDocuments(invoices, links[..|links| - 1], p);
    }
  }

  lemma {:induction false} DropAllocsDistinct(allocs: seq<Alloc>, p: nat)
    requires forall k, l :: 0 <= k < l < |allocs| ==> allocs[k].charge != allocs[l].charge
    ensures var r := DropAllocs(allocs, p); forall k, l :: 0 <= k < l < |r| ==> r[k].charge != r[l].charge
  {
    if allocs != [] {
      var n := |allocs| - 1;
      DropAllocsDistinct(allocs[..n], p);
      DropAllocsSum(allocs[..n], p, p);
      var r := DropAllocs(allocs[..n], p);
      forall k | 0 <= k < |r| ensures r[k].charge != allocs[n].charge { assert r[k] in r; }
    }
  }

  lemma DroppedKeepsAllocs(db: Db, next: Db, p: nat)
    requires AllocsOk(db) && p < |db.payments| && next.charges == db.charges && next.sources == db.sources
    requires next.payments == db.payments[p := db.payments[p].(reversed := true)] && next.allocs == DropAllocs(db.allocs, p)
    ensures AllocsOk(next)
  {
    hide Backed;
    DropAllocsDistinct(db.allocs, p);
    DropAllocsSum(db.allocs, p, p);
    forall k | 0 <= k < |next.allocs| ensures next.allocs[k] in db.allocs && next.allocs[k].payment != p {
      assert next.allocs[k] in next.allocs;
    }
    hide DropAllocs;
  }

  lemma ReverseKeepsClaims(db: Db, p: nat)
    requires ClaimsOk(db)
    ensures ClaimsOk(Apply(db, ReversePayment(db, p)))
  {
    var o := ReversePayment(db, p);
    hide Unstamp, Reopen, GiveBack, DropAllocs;
    if o.Committed? {
      var mid := o.db.(charges := db.charges);
      GiveBackKeepsDocuments(db.invoices, db.links, p);
      assert ClaimsOk(mid) by {
        DroppedKeepsAllocs(db, mid, p);
        hide SourcesOk, StornosOk, NumbersOk, ChargesOk, Backed, AllocsOk;
        DocumentsKeptKeepsClaims(db, mid);
      }
      hide ClaimsOk;
      FlagsKeepClaims(mid, o.db);
    }
  }

  lemma ReverseKeepsReceipts(db: Db, p: nat)
    requires ReceiptsOk(db)
    ensures ReceiptsOk(Apply(db, ReversePayment(db, p)))
  {
    var o := ReversePayment(db, p);
    hide Unstamp, GiveBack, DropAllocs, Balance;
    if o.Committed? {
      var next := o.db;
      forall k | 0 <= k < |next.deposits| ensures DepositOk(next, next.deposits[k]) { assert DepositOk(db, db.deposits[k]); }
      forall person ensures Balance(next.deposits, next.payments, person) >= 0 {
        ReversalRaisesBalance(db, db.deposits, p, person);
        assert Balance(db.deposits, db.payments, person) >= 0;
      }
      assert DepositsOk(next);
      hide DepositsOk, DepositOk;
      assert BankOk(next);
    }
  }

  // ---------- bank transactions ----------

  lemma AssignedKeepsBank(db: Db, mid: Db, next: Db, tx: nat, person: nat, pay: Payment)
    requires BankOk(db) && tx in db.bank && Unresolved(db, db.bank[tx], Open)
    requires BookedInto(db, mid, pay) && pay.key.BankKey? && pay.key.tx == tx && !pay.reversed
    requires next == mid.(bank := db.bank[tx := db.bank[tx].(status := Assigned, payment := Some(|db.payments|), person := Some(person))])
    ensures BankOk(next)
  {
  }

  /** A replayed receipt would still stand, so the transaction would not have been open. */
  lemma ReplayIsRefused(db: Db, tx: nat, p: nat)
    requires BankOk(db) && tx in db.bank && Unresolved(db, db.bank[tx], Open)
    requires p < |db.payments| && db.payments[p].key.BankKey? && db.payments[p].key.tx == tx
    ensures db.payments[p].reversed
  {
  }

  lemma AssignBankKeepsValid(db: Db, tx: nat, target: Target, actor: nat)
    requires Valid(db)
    ensures Valid(Apply(db, AssignBank(db, tx, target, actor)))
  {
    var o := AssignBank(db, tx, target, actor);
    hide MoneyOk, ClaimsOk, BankOk, KeysOk, DepositsOk, RecordPayment, FindKey;
    if o.Committed? {
      var t := db.bank[tx];
      var person := if target.ToInvoice? then db.invoices[target.invoice].person else target.person;
      var allocations := if target.ToInvoice?
        then [(target.invoice, Min(t.amount, OpenAmount(db, target.invoice)))] else [];
      var req, key := Request(person, t.amount, false, allocations), BankKey(tx, t.payment);
      var r := RecordPayment(db, req, actor, key);
      RecordPaymentBooks(db, req, actor, key);
      if r.Paid? {
        var pay := Payment(person, t.amount, false, None, actor, key, req);
        hide BookedInto, Unresolved;
        BookedKeepsDocuments(db, r.db, pay);
        BookedKeepsKeys(db, r.db, pay);
        BookedKeepsDeposits(db, r.db, pay);
        AssignedKeepsBank(db, r.db, o.db, tx, person, pay);
        MoneyFrame(r.db, o.db);
        ClaimsFrame(r.db, o.db);
        KeysFrame(r.db, o.db);
        DepositsFrame(r.db, o.db);
      } else {
        ReplayHasKey(db, req, actor, key);
        ReplayIsRefused(db, tx, r.payment);
        assert false;
      }
    }
  }

  lemma ReplayHasKey(db: Db, req: Request, actor: nat, key: PaymentKey)
    ensures var r := RecordPayment(db, req, actor, key);
      r.Replayed? ==> r.payment < |db.payments| && db.payments[r.payment].key == key
  {
    hide FindKey, BookLoop, OpenOldestFirst, Explicit;
  }

  lemma DepositsFrame(db: Db, next: Db)
    requires DepositsOk(db) && next.payments == db.payments && next.deposits == db.deposits && next.nextDeposit == db.nextDeposit
    ensures DepositsOk(next)
  {
    hide Balance;
  }

  lemma BankOnlyKeepsValid(db: Db, next: Db)
    requires Valid(db) && next == db.(bank := next.bank) && BankOk(next)
    ensures Valid(next)
  {
    hide MoneyOk, ClaimsOk, BankOk, KeysOk, DepositsOk;
    MoneyFrame(db, next);
    ClaimsFrame(db, next);
    KeysFrame(db, next);
    DepositsFrame(db, next);
  }

  lemma SetIgnoredKeepsValid(db: Db, tx: nat, ignored: bool)
    requires Valid(db)
    ensures Valid(Apply(db, SetIgnored(db, tx, ignored)))
  {
    var next := Apply(db, SetIgnored(db, tx, ignored));
    hide MoneyOk, ClaimsOk, KeysOk, DepositsOk;
    assert BankOk(next);
    hide BankOk;
    BankOnlyKeepsValid(db, next);
  }

  lemma ImportBankKeepsValid(db: Db, tx: nat, amount: int, euro: bool)
    requires Valid(db)
    ensures Valid(ImportBank(db, tx, amount, euro))
  {
    var next := ImportBank(db, tx, amount, euro);
    hide MoneyOk, ClaimsOk, KeysOk, DepositsOk;
    assert BankOk(next);
    hide BankOk;
    BankOnlyKeepsValid(db, next);
  }

  // ---------- one-off charges ----------

  /** A charge that is neither invoiced nor allocated is not referred to by any document or receipt. */
  lemma UnlockedIsUnreferenced(db: Db, id: nat)
    requires ClaimsOk(db) && !FinanciallyLocked(db, id)
    ensures forall i, it :: 0 <= i < |db.invoices| && Active(db.invoices[i]) && it in db.invoices[i].lines ==>
      !(it.position.kind.OneOffCharge? && it.position.ref == id)
    ensures forall k :: 0 <= k < |db.allocs| ==> db.allocs[k].charge != id
  {
    hide StornosOk, NumbersOk, Backed;
    forall i, it | 0 <= i < |db.invoices| && Active(db.invoices[i]) && it in db.invoices[i].lines
      ensures !(it.position.kind.OneOffCharge? && it.position.ref == id)
    {
      assert it.position in Positions(db.invoices[i].lines);
      assert BackedLine(db.charges, it);
      if it.position.kind.OneOffCharge? { assert it.position == Position(OneOffCharge, it.position.ref, ""); }
    }
  }

  lemma BackedElsewhere(a: seq<ChargeRow>, b: seq<ChargeRow>, id: nat, ref: nat, amount: int)
    requires (forall m :: 0 <= m < |a| && a[m].id != id ==> a[m] in b) && ref != id && Backed(a, ref, amount)
    ensures Backed(b, ref, amount)
  {
    hide ChargeTotal;
    var m :| 0 <= m < |a| && a[m].id == ref && ChargeTotal(a[m].amount, a[m].quantity) == amount;
    assert a[m] in b;
  }

  lemma UnlockedRowKeepsClaims(db: Db, next: Db, id: nat)
    requires ClaimsOk(db) && !FinanciallyLocked(db, id)
    requires next == db.(charges := next.charges, nextCharge := next.nextCharge) && ChargeIdsOk(next)
    requires forall m :: 0 <= m < |db.charges| && db.charges[m].id != id ==> db.charges[m] in next.charges
    ensures ClaimsOk(next)
  {
    UnlockedIsUnreferenced(db, id);
    hide SourcesOk, StornosOk, NumbersOk, Backed, FinanciallyLocked, ChargeIdsOk;
    DocumentsKeptKeepsClaims(db, next);
    forall ref, amount | ref != id && Backed(db.charges, ref, amount) ensures Backed(next.charges, ref, amount) {
      BackedElsewhere(db.charges, next.charges, id, ref, amount);
    }
    forall i, it | 0 <= i < |next.invoices| && Active(next.invoices[i]) && it in next.invoices[i].lines
      ensures BackedLine(next.charges, it)
    {
      assert BackedLine(db.charges, it);
    }
  }

  lemma CreateChargeKeepsClaims(db: Db, person: nat, vehicle: Option<nat>, amount: int, quantity: int, on: nat)
    requires ClaimsOk(db)
    ensures ClaimsOk(CreateCharge(db, person, vehicle, amount, quantity, on))
  {
    var next := CreateCharge(db, person, vehicle, amount, quantity, on);
    assert ChargeIdsOk(next);
    hide SourcesOk, StornosOk, NumbersOk, Backed, ChargeIdsOk;
    DocumentsKeptKeepsClaims(db, next);
    forall ref, total | Backed(db.charges, ref, total) ensures Backed(next.charges, ref, total) {
      BackedAppend(db.charges, next.charges[|db.charges|], ref, total);
    }
    forall it | BackedLine(db.charges, it) ensures BackedLine(next.charges, it) { }
    hide BackedLine;
  }

  lemma BackedAppend(a: seq<ChargeRow>, c: ChargeRow, ref: nat, total: int)
    requires Backed(a, ref, total)
    ensures Backed(a + [c], ref, total)
  {
    hide ChargeTotal;
    var m :| 0 <= m < |a| && a[m].id == ref && ChargeTotal(a[m].amount, a[m].quantity) == total;
    assert (a + [c])[m] == a[m];
  }

  lemma UpdateChargeKeepsClaims(
    db: Db, id: nat, person: nat, vehicle: Option<nat>, amount: int, quantity: int, on: nat)
    requires ClaimsOk(db)
    ensures ClaimsOk(Apply(db, UpdateCharge(db, id, person, vehicle, amount, quantity, on)))
  {
    var o := UpdateCharge(db, id, person, vehicle, amount, quantity, on);
    hide FinanciallyLocked, SourcesOk, StornosOk, NumbersOk, AllocsOk;
    if o.Committed? {
      var next := o.db;
      var k := FindCharge(db.charges, id, |db.charges|).value;
      assert ChargeIdsOk(next);
      hide FindCharge;
      forall m | 0 <= m < |db.charges| && db.charges[m].id != id ensures db.charges[m] in next.charges {
        assert next.charges[m] == db.charges[m];
      }
      if FinanciallyLocked(db, id) {
        hide ChargesOk, ChargeIdsOk;
        FlagsKeepClaims(db, next);
      } else {
        hide ChargesOk, ChargeIdsOk;
        UnlockedRowKeepsClaims(db, next, id);
      }
    }
  }

  lemma DeleteChargeKeepsClaims(db: Db, id: nat)
    requires ClaimsOk(db)
    ensures ClaimsOk(Apply(db, DeleteCharge(db, id)))
  {
    var o := DeleteCharge(db, id);
    hide FinanciallyLocked, SourcesOk, StornosOk, NumbersOk, AllocsOk;
    if o.Committed? {
      var next := o.db;
      var k := FindCharge(db.charges, id, |db.charges|).value;
      assert ChargeIdsOk(next);
      hide FindCharge;
      forall m | 0 <= m < |db.charges| && db.charges[m].id != id ensures db.charges[m] in next.charges {
        if m < k { assert next.charges[m] == db.charges[m]; } else { assert next.charges[m - 1] == db.charges[m]; }
      }
      hide ChargesOk, ChargeIdsOk;
      UnlockedRowKeepsClaims(db, next, id);
    }
  }

  lemma ChargesOnlyKeepsValid(db: Db, next: Db)
    requires Valid(db) && ClaimsOk(next) && next == db.(charges := next.charges, nextCharge := next.nextCharge)
    ensures Valid(next)
  {
    hide MoneyOk, ClaimsOk, ReceiptsOk;
    MoneyFrame(db, next);
    ReceiptsFrame(db, next);
  }

  // ---------- every step, every run ----------

  lemma CreateChargeKeepsValid(db: Db, person: nat, vehicle: Option<nat>, amount: int, quantity: int, on: nat)
    requires Valid(db)
    ensures Valid(CreateCharge(db, person, vehicle, amount, quantity, on))
  {
    hide ClaimsOk, MoneyOk, ReceiptsOk;
    CreateChargeKeepsClaims(db, person, vehicle, amount, quantity, on);
    ChargesOnlyKeepsValid(db, CreateCharge(db, person, vehicle, amount, quantity, on));
  }

  lemma UpdateChargeKeepsValid(
    db: Db, id: nat, person: nat, vehicle: Option<nat>, amount: int, quantity: int, on: nat)
    requires Valid(db)
    ensures Valid(Apply(db, UpdateCharge(db, id, person, vehicle, amount, quantity, on)))
  {
    hide ClaimsOk, MoneyOk, ReceiptsOk, FinanciallyLocked, FindCharge;
    UpdateChargeKeepsClaims(db, id, person, vehicle, amount, quantity, on);
    ChargesOnlyKeepsValid(db, Apply(db, UpdateCharge(db, id, person, vehicle, amount, quantity, on)));
  }

  lemma DeleteChargeKeepsValid(db: Db, id: nat)
    requires Valid(db)
    ensures Valid(Apply(db, DeleteCharge(db, id)))
  {
    hide ClaimsOk, MoneyOk, ReceiptsOk, FinanciallyLocked, FindCharge;
    DeleteChargeKeepsClaims(db, id);
    ChargesOnlyKeepsValid(db, Apply(db, DeleteCharge(db, id)));
  }

  /** Every transaction keeps the ledger valid, whatever it is and however it ends. */
  lemma StepKeepsValid(db: Db, op: Op)
    requires Valid(db)
    ensures Valid(Step(db, op))
  {
    hide Valid, CreateInvoice, CancelInvoice, SaveSettings, PayInvoices, ApplyCredit, SettleExtras, CreateDeposit,
      DeleteDeposit, ReversePayment, AssignBank, SetIgnored, ImportBank, CreateCharge, UpdateCharge, DeleteCharge;
    match op
    case OpCreateInvoice(person, known, acc, rate, parts, asOf) =>
      CreateInvoiceKeepsValid(db, person, known, acc, rate, parts, asOf);
    case OpCancelInvoice(id, asOf) => CancelInvoiceKeepsValid(db, id, asOf);
    case OpSaveSettings(n, prefix, pad) => SaveSettingsKeepsValid(db, n, prefix, pad);
    case OpPay(req, actor, key) =>
      PayKeepsValid(db, req, actor, KeyOf(key));
    case OpApplyCredit(person) => ApplyCreditKeepsValid(db, person);
    case OpSettleExtras(person, agreement, covered, actor) => SettleExtrasKeepsValid(db, person, agreement, covered, actor);
    case OpCreateDeposit(person, known, kind, amount, actor) =>
      CreateDepositKeepsValid(db, person, known, kind, amount, actor);
    case OpDeleteDeposit(id) => DeleteDepositKeepsValid(db, id);
    case OpReverse(p) => ReverseKeepsValid(db, p);
    case OpAssignBank(tx, target, actor) => AssignBankKeepsValid(db, tx, target, actor);
    case OpSetIgnored(tx, ignored) => SetIgnoredKeepsValid(db, tx, ignored);
    case OpImportBank(tx, amount, euro) => ImportBankKeepsValid(db, tx, amount, euro);
    case OpCreateCharge(person, vehicle, amount, quantity, on) =>
      CreateChargeKeepsValid(db, person, vehicle, amount, quantity, on);
    case OpUpdateCharge(id, person, vehicle, amount, quantity, on) =>
      UpdateChargeKeepsValid(db, id, person, vehicle, amount, quantity, on);
    case OpDeleteCharge(id) => DeleteChargeKeepsValid(db, id);
  }

  lemma SettleExtrasKeepsValid(db: Db, person: nat, agreement: nat, covered: set<nat>, actor: nat)
    requires Valid(db)
    ensures Valid(SettleExtras(db, person, agreement, covered, actor))
  {
    SettleExtrasKeepsMoney(db, person, agreement, covered, actor);
    SettleExtrasKeepsClaims(db, person, agreement, covered, actor);
    SettleExtrasKeepsReceipts(db, person, agreement, covered, actor);
  }

  lemma ReverseKeepsValid(db: Db, p: nat)
    requires Valid(db)
    ensures Valid(Apply(db, ReversePayment(db, p)))
  {
    ReversePaymentKeepsMoney(db, p);
    ReverseKeepsClaims(db, p);
    ReverseKeepsReceipts(db, p);
  }

  /** All runs of all transactions from a fresh installation, in any order and of any length. */
  lemma {:induction false} RunKeepsValid(db: Db, ops: seq<Op>)
    requires Valid(db)
    ensures Valid(Run(db, ops))
  {
    hide Valid, Step;
    if ops != [] {
      RunKeepsValid(db, ops[..|ops| - 1]);
      StepKeepsValid(Run(db, ops[..|ops| - 1]), ops[|ops| - 1]);
    }
  }
}
