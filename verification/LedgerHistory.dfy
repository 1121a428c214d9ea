/**
 What holds across several transactions: billing twice finds nothing, Storno makes room for the
 same invoice again, documents are never rewritten, and billed charges stay as billed.
 */
module LedgerHistory {
  import opened PeriodKeys
  import opened Accrual
  import opened OwedLines
  import opened InvoiceLines
  import opened LedgerState
  import opened LedgerClaims
  import opened LedgerReceipts
  import opened LedgerRuns

  // ---------- invoicing twice ----------

  lemma {:induction false} SameCharges(db: Db, next: Db, person: nat, n: nat)
    requires next.charges == db.charges && next.allocs == db.allocs && n <= |db.charges|
    ensures ChargesOf(next, person, n) == ChargesOf(db, person, n)
  {
    if n > 0 { SameCharges(db, next, person, n - 1); }
  }

  /** A second invoice at the same moment finds nothing to bill. */
  lemma SecondCreateFindsNothing(
    db: Db, person: nat, acc: Accounts, rate: nat, parts: Particulars, asOf: nat, rate': nat, parts': Particulars)
    requires ClaimsOk(db) && CreateInvoice(db, person, true, acc, rate, parts, asOf).Committed?
    ensures CreateInvoice(CreateInvoice(db, person, true, acc, rate, parts, asOf).db, person, true, acc, rate', parts', asOf)
         == RolledBack(NoOpenItems)
  {
    var inv := IssuedState(db, person, acc, rate, parts, asOf);
    var next := CreateInvoice(db, person, true, acc, rate, parts, asOf).db;
    var lines := OpenLines(db, person, acc, asOf);
    var locked := LockedPositions(db, person);
    SameCharges(db, next, person, |db.charges|);
    SecondInvoiceFindsNothing(BillableOf(db, person, acc), asOf, locked);
    hide AllLines, CreateInvoice, Claimed, Positions, LockLines, DistinctPositions;
    IssuedLocks(db, next, person, lines);
    assert OpenLines(next, person, acc, asOf) == [];
    NothingOpen(next, person, acc, rate', parts', asOf);
  }

  lemma NothingOpen(db: Db, person: nat, acc: Accounts, rate: nat, parts: Particulars, asOf: nat)
    requires OpenLines(db, person, acc, asOf) == []
    ensures CreateInvoice(db, person, true, acc, rate, parts, asOf) == RolledBack(NoOpenItems)
  {
    hide OpenLines, Gross;
  }

  lemma IssuedLocks(db: Db, next: Db, person: nat, lines: seq<OwedItem>)
    requires SourcesOk(db) && |next.invoices| == |db.invoices| + 1 && next.invoices[..|db.invoices|] == db.invoices
    requires next.invoices[|db.invoices|].person == person && !next.invoices[|db.invoices|].canceled
    requires next.sources == LockLines(db.sources, lines, |db.invoices|)
    requires forall p :: p in Positions(lines) ==> p !in db.sources
    ensures LockedPositions(next, person) == LockedPositions(db, person) + Positions(lines)
  {
    LockLinesAdds(db.sources, lines, |db.invoices|);
    hide Positions, LockLines;
    assert forall i :: 0 <= i < |db.invoices| ==> next.invoices[i] == next.invoices[..|db.invoices|][i];
    forall p | p in db.sources ensures db.sources[p] < |db.invoices| { assert Owns(db, db.sources[p], p); }
  }

  /** The state an invoice leaves behind. */
  lemma IssuedState(db: Db, person: nat, acc: Accounts, rate: nat, parts: Particulars, asOf: nat) returns (inv: Invoice)
    requires CreateInvoice(db, person, true, acc, rate, parts, asOf).Committed?
    ensures Active(inv) && inv.person == person && inv.lines == OpenLines(db, person, acc, asOf)
    ensures CreateInvoice(db, person, true, acc, rate, parts, asOf).db
         == db.(nextNo := db.nextNo + 1, invoices := db.invoices + [inv],
                sources := LockLines(db.sources, inv.lines, |db.invoices|))
    ensures DistinctPositions(inv.lines) && forall p :: p in Positions(inv.lines) ==> p !in db.sources
  {
    LockAllSound(db, db.sources, OpenLines(db, person, acc, asOf), |db.invoices|);
    hide OpenLines, Compliant, Gross, NumberText, NumberIsTaken, DistinctPositions, Claimed, LockLines, LockAll, Positions;
    inv := CreateInvoice(db, person, true, acc, rate, parts, asOf).db.invoices[|db.invoices|];
  }

  /** The state a Storno leaves behind. */
  lemma CanceledState(db: Db, id: nat, asOf: nat) returns (storno: Invoice)
    requires CancelInvoice(db, id, asOf).Committed?
    ensures id < |db.invoices| && Active(db.invoices[id]) && storno.cancels == Some(id) && storno.person == db.invoices[id].person
    ensures CancelInvoice(db, id, asOf).db
         == db.(nextNo := db.nextNo + 1,
                invoices := db.invoices[id := db.invoices[id].(canceled := true, paid := 0)] + [storno],
                sources := map p | p in db.sources && db.sources[p] != id :: db.sources[p],
                links := DropInvoice(db.links, id))
  {
    hide NumberText, NumberIsTaken, Negated, DropInvoice;
    storno := CancelInvoice(db, id, asOf).db.invoices[|db.invoices|];
  }

  lemma LocksComeAndGo(sources: map<Position, nat>, lines: seq<OwedItem>, n: nat)
    requires forall p :: p in sources ==> sources[p] < n
    requires forall p :: p in Positions(lines) ==> p !in sources
    ensures var locked := LockLines(sources, lines, n);
      (map p | p in locked && locked[p] != n :: locked[p]) == sources
  {
    LockLinesAdds(sources, lines, n);
    hide LockLines, Positions;
  }

  /** After issuing and cancelling, exactly the same lines are open again. */
  lemma StornoReopensTheLines(
    db: Db, person: nat, acc: Accounts, rate: nat, parts: Particulars, asOf: nat, later: nat)
    requires ClaimsOk(db) && CreateInvoice(db, person, true, acc, rate, parts, asOf).Committed?
    requires CancelInvoice(CreateInvoice(db, person, true, acc, rate, parts, asOf).db, |db.invoices|, later).Committed?
    ensures var issued := CreateInvoice(db, person, true, acc, rate, parts, asOf).db;
      OpenLines(CancelInvoice(issued, |db.invoices|, later).db, person, acc, asOf) == OpenLines(db, person, acc, asOf)
  {
    var n := |db.invoices|;
    var inv := IssuedState(db, person, acc, rate, parts, asOf);
    var issued := CreateInvoice(db, person, true, acc, rate, parts, asOf).db;
    hide CreateInvoice;
    var storno := CanceledState(issued, n, later);
    var after := CancelInvoice(issued, n, later).db;
    hide CancelInvoice, OpenLines, LockLines, DropInvoice, Positions, DistinctPositions;
    SameCharges(db, after, person, |db.charges|);
    forall p | p in db.sources ensures db.sources[p] < n { assert Owns(db, db.sources[p], p); }
    hide ClaimsOk;
    LocksComeAndGo(db.sources, inv.lines, n);
    assert after.sources == db.sources;
    assert forall i :: 0 <= i < n ==> after.invoices[i] == db.invoices[i];
    assert LockedPositions(after, person) == LockedPositions(db, person);
    SameOpenLines(db, after, person, acc, asOf);
  }

  lemma SameOpenLines(db: Db, next: Db, person: nat, acc: Accounts, asOf: nat)
    requires ChargesOf(next, person, |next.charges|) == ChargesOf(db, person, |db.charges|)
    requires LockedPositions(next, person) == LockedPositions(db, person)
    ensures OpenLines(next, person, acc, asOf) == OpenLines(db, person, acc, asOf)
  {
  }

  /** The clock stays within four-digit years, so that period keys parse. */
  predicate ClockOk(asOf: nat) {
    forall p :: YearOf(p, Calendar.PeriodOf(p, asOf)) <= MAX_YEAR
  }

  /** An active invoice of somebody else holds a position of `lines`. */
  predicate TakenByAnother(db: Db, person: nat, lines: seq<OwedItem>) {
    exists p :: p in db.sources && p in Positions(lines) && Owns(db, db.sources[p], p) && db.invoices[db.sources[p]].person != person
  }

  /**
   Invoicing fails on a position already taken exactly if another person's active invoice holds
   one: a person's own invoices and own double positions never get in the way.
   */
  lemma OnlyAnotherPersonBlocks(
    db: Db, person: nat, acc: Accounts, rate: nat, parts: Particulars, asOf: nat)
    requires ClaimsOk(db) && ClockOk(asOf)
    requires var lines := OpenLines(db, person, acc, asOf);
      lines != [] && Compliant(parts, Gross(SumLines(lines), rate)) && !NumberIsTaken(db, NumberText(db))
    ensures CreateInvoice(db, person, true, acc, rate, parts, asOf) == RolledBack(AlreadyBilled)
      <==> TakenByAnother(db, person, OpenLines(db, person, acc, asOf))
  {
    var lines := OpenLines(db, person, acc, asOf);
    OwnLinesAreFree(db, person, acc, asOf);
    ClaimedChargesAreNotBilled(db, person, acc, asOf);
    LockAllSound(db, db.sources, lines, |db.invoices|);
    hide OpenLines, Gross, NumberText, NumberIsTaken, DistinctPositions, Claimed, Compliant, Positions, LockAll, LockLines;
    hide ClaimsOk, LockedPositions;
  }

  lemma OwnLinesAreFree(db: Db, person: nat, acc: Accounts, asOf: nat)
    requires ClaimsOk(db) && ClockOk(asOf)
    ensures var lines := OpenLines(db, person, acc, asOf);
      && DistinctPositions(lines)
      && forall p :: p in Positions(lines) && p in db.sources ==>
           Owns(db, db.sources[p], p) && db.invoices[db.sources[p]].person != person
  {
    var b, locked := BillableOf(db, person, acc), LockedPositions(db, person);
    forall p | p in db.sources ensures Owns(db, db.sources[p], p) && (p !in locked ==> db.invoices[db.sources[p]].person != person) { }
    ChargesOfRows(db, person, |db.charges|);
    hide LockedPositions, ChargesOf, FromRow;
    assert WellFormed(b, asOf);
    hide WellFormed;
    AllLinesDistinct(b, asOf, locked);
    AllLinesFresh(b, asOf, locked);
    hide AllLines;
    var lines := OpenLines(db, person, acc, asOf);
    forall p | p in Positions(lines) ensures p !in locked {
      var k :| 0 <= k < |lines| && lines[k].position == p;
      assert lines[k] in lines;
    }
  }

  /** An open charge line is never one a receipt already covers, so that conflict cannot arise. */
  lemma ClaimedChargesAreNotBilled(db: Db, person: nat, acc: Accounts, asOf: nat)
    ensures forall p :: p in Positions(OpenLines(db, person, acc, asOf)) && p.kind.OneOffCharge? ==> !Claimed(db, p.ref)
  {
    var b, locked := BillableOf(db, person, acc), LockedPositions(db, person);
    hide SourceLines, VehicleSources, ChargeTotal, LockedPositions, ChargesOf, Claimed;
    ChargesOfRows(db, person, |db.charges|);
    ChargeLinesUnclaimed(b.charges, false, locked);
    ChargeLinesUnclaimed(b.charges, true, locked);
    VehicleSourcesDistinct(b.vehicles);
    SourceLinesFresh(VehicleSources(b.vehicles), asOf, locked);
    SourceLinesFresh(b.agreements, asOf, locked);
    SourceLinesFresh(b.recurring, asOf, locked);
    hide FreshLines, ChargeLines;
    var lines := OpenLines(db, person, acc, asOf);
    forall p | p in Positions(lines) && p.kind.OneOffCharge? ensures !Claimed(db, p.ref) {
      var k :| 0 <= k < |lines| && lines[k].position == p;
      assert lines[k] in lines;
      assert lines[k] in ChargeLines(b.charges, false, locked) || lines[k] in ChargeLines(b.charges, true, locked);
      var j :| 0 <= j < |b.charges| && b.charges[j].id == p.ref && !b.charges[j].claimed;
      assert b.charges[j] in b.charges && FromRow(db, person, |db.charges|, b.charges[j]);
    }
  }

  lemma {:induction false} ChargeLinesUnclaimed(cs: seq<Charge>, bound: bool, locked: set<Position>)
    ensures forall it :: it in ChargeLines(cs, bound, locked) ==>
      exists k :: 0 <= k < |cs| && cs[k].id == it.position.ref && !cs[k].claimed
  {
    hide ChargeTotal;
    if cs != [] {
      ChargeLinesUnclaimed(cs[..|cs| - 1], bound, locked);
    }
  }

  // ---------- documents are never rewritten ----------

  /** The document stays as issued; only its payment and its cancelled mark move. */
  predicate StillIssued(a: Invoice, b: Invoice) {
    b == a.(paid := b.paid, canceled := b.canceled) && (a.canceled ==> b.canceled)
  }

  predicate Extends(db: Db, next: Db) {
    |db.invoices| <= |next.invoices| && forall i :: 0 <= i < |db.invoices| ==> StillIssued(db.invoices[i], next.invoices[i])
  }

  /** Numbers from `no` on go to the documents from index `n` on, one each. */
  predicate Gapless(db: Db, n: nat, no: nat) {
    && n <= |db.invoices| && db.nextNo == no + |db.invoices| - n
    && forall i :: n <= i < |db.invoices| ==> db.invoices[i].no == no + i - n
  }

  lemma DocumentsKeptExtends(db: Db, next: Db, n: nat, no: nat)
    requires DocumentsKept(db, next)
    ensures Extends(db, next) && (Gapless(db, n, no) ==> Gapless(next, n, no))
  {
    forall i | 0 <= i < |db.invoices| ensures StillIssued(db.invoices[i], next.invoices[i]) {
      assert SameDocument(db.invoices[i], next.invoices[i]);
    }
    forall i | 0 <= i < |db.invoices| ensures next.invoices[i].no == db.invoices[i].no {
      assert SameDocument(db.invoices[i], next.invoices[i]);
    }
  }

  predicate Issues(op: Op) {
    op.OpCreateInvoice? || op.OpCancelInvoice?
  }

  lemma IssuingExtends(db: Db, op: Op, n: nat, no: nat)
    requires Issues(op)
    ensures Extends(db, Step(db, op)) && (Gapless(db, n, no) ==> Gapless(Step(db, op), n, no))
  {
    hide OpenLines, NumberIsTaken, Compliant, Gross, LockAll, Negated, DropInvoice;
    var next := Step(db, op);
    forall i | 0 <= i < |db.invoices| ensures StillIssued(db.invoices[i], next.invoices[i]) { }
  }

  /** Transactions that issue nothing leave every document as it is. */
  lemma BookingKeepsDocuments(db: Db, op: Op)
    requires LedgerMoney.MoneyOk(db) && !Issues(op) && !op.OpSaveSettings?
    ensures DocumentsKept(db, Step(db, op))
  {
    hide Valid, PayInvoices, ApplyCredit, SettleExtras, CreateDeposit,
      DeleteDeposit, ReversePayment, AssignBank, SetIgnored, ImportBank, CreateCharge, UpdateCharge, DeleteCharge;
    match op
    case OpPay(req, actor, key) =>
      PayKeepsDocuments(db, req, actor, KeyOf(key));
    case OpApplyCredit(person) => CreditKeepsDocuments(db, person);
    case OpSettleExtras(person, agreement, covered, actor) => RestKeepsDocuments(db, op);
    case OpCreateDeposit(person, known, kind, amount, actor) => DepositKeepsDocuments(db, person, known, kind, amount, actor);
    case OpReverse(p) => ReverseKeepsDocuments(db, p);
    case OpAssignBank(tx, target, actor) => AssignKeepsDocuments(db, tx, target, actor);
    case _ => RestKeepsDocuments(db, op);
  }

  predicate Kept(db: Db, next: Db) {
    DocumentsKept(db, next) && next.charges == db.charges
  }

  lemma PayKeepsDocuments(db: Db, req: Request, actor: nat, key: PaymentKey)
    requires LedgerMoney.MoneyOk(db)
    ensures Kept(db, Apply(db, PayInvoices(db, req, actor, key)))
  {
    RecordPaymentBooks(db, req, actor, key);
    hide RecordPayment, LedgerMoney.MoneyOk, ClaimsOk, ReceiptsOk;
  }

  lemma CreditKeepsDocuments(db: Db, person: nat)
    requires LedgerMoney.MoneyOk(db)
    ensures Kept(db, ApplyCredit(db, person))
  {
    LedgerCredit.ApplyCreditSweeps(db, person);
    hide ApplyCredit, LedgerMoney.MoneyOk, ClaimsOk, ReceiptsOk, LedgerMoney.SumOpen, LedgerCredit.SumFree, Used;
  }

  lemma DepositKeepsDocuments(db: Db, person: nat, known: bool, kind: DepositKind, amount: int, actor: nat)
    requires LedgerMoney.MoneyOk(db)
    ensures Kept(db, Apply(db, CreateDeposit(db, person, known, kind, amount, actor)))
  {
    RecordPaymentBooks(db, Request(person, amount, true, []), actor, DepositKey(db.nextDeposit));
    hide RecordPayment, LedgerMoney.MoneyOk, ClaimsOk, ReceiptsOk, Balance;
  }

  lemma AssignKeepsDocuments(db: Db, tx: nat, target: Target, actor: nat)
    requires LedgerMoney.MoneyOk(db)
    ensures Kept(db, Apply(db, AssignBank(db, tx, target, actor)))
  {
    hide RecordPayment, LedgerMoney.MoneyOk, ClaimsOk, ReceiptsOk;
    if AssignBank(db, tx, target, actor).Committed? {
      var t := db.bank[tx];
      var person := if target.ToInvoice? then db.invoices[target.invoice].person else target.person;
      var allocations := if target.ToInvoice?
        then [(target.invoice, Min(t.amount, OpenAmount(db, target.invoice)))] else [];
      RecordPaymentBooks(db, Request(person, t.amount, false, allocations), actor, BankKey(tx, t.payment));
    }
  }

  lemma ReverseKeepsDocuments(db: Db, p: nat)
    ensures DocumentsKept(db, Apply(db, ReversePayment(db, p)))
  {
    GiveBackKeepsDocuments(db.invoices, db.links, p);
    hide GiveBack, Unstamp, Reopen, DropPayment, DropAllocs;
  }

  lemma RestKeepsDocuments(db: Db, op: Op)
    requires op.OpSettleExtras? || op.OpDeleteDeposit? || op.OpSetIgnored? || op.OpImportBank? || op.OpCreateCharge?
             || op.OpUpdateCharge? || op.OpDeleteCharge?
    ensures DocumentsKept(db, Step(db, op))
  {
    hide SumAllocs, ExtraAllocs, MarkExtras, Balance, FindDeposit, DropDeposit, FindCharge, FinanciallyLocked, Unresolved;
  }

  lemma StepExtends(db: Db, op: Op, n: nat, no: nat)
    requires Valid(db)
    ensures Extends(db, Step(db, op))
    ensures !op.OpSaveSettings? && Gapless(db, n, no) ==> Gapless(Step(db, op), n, no)
  {
    if Issues(op) {
      IssuingExtends(db, op, n, no);
    } else if !op.OpSaveSettings? {
      BookingKeepsDocuments(db, op);
      hide Step, Valid;
      DocumentsKeptExtends(db, Step(db, op), n, no);
    }
  }

  /** In every run issued documents are immutable. */
  lemma {:induction false} IssuedDocumentsAreImmutable(db: Db, ops: seq<Op>)
    requires Valid(db)
    ensures Extends(db, Run(db, ops))
  {
    hide Valid, Step;
    if ops != [] {
      var mid := Run(db, ops[..|ops| - 1]);
      IssuedDocumentsAreImmutable(db, ops[..|ops| - 1]);
      RunKeepsValid(db, ops[..|ops| - 1]);
      StepExtends(mid, ops[|ops| - 1], 0, 0);
      forall i | 0 <= i < |db.invoices| ensures StillIssued(db.invoices[i], Run(db, ops).invoices[i]) {
        assert StillIssued(db.invoices[i], mid.invoices[i]) && StillIssued(mid.invoices[i], Run(db, ops).invoices[i]);
      }
    }
  }

  /**
   Without a settings change, a run numbers its documents consecutively from where it began:
   failed and repeated attempts leave no gap.
   */
  lemma {:induction false} NumbersAreGapless(db: Db, ops: seq<Op>)
    requires Valid(db) && forall k :: 0 <= k < |ops| ==> !ops[k].OpSaveSettings?
    ensures Gapless(Run(db, ops), |db.invoices|, db.nextNo)
  {
    hide Valid, Step;
    if ops != [] {
      NumbersAreGapless(db, ops[..|ops| - 1]);
      RunKeepsValid(db, ops[..|ops| - 1]);
      StepExtends(Run(db, ops[..|ops| - 1]), ops[|ops| - 1], |db.invoices|, db.nextNo);
    }
  }

  // ---------- revenue ----------

  function SumTotals(invoices: seq<Invoice>, activeOnly: bool): int {
    if invoices == [] then 0
    else
      var inv := invoices[|invoices| - 1];
      SumTotals(invoices[..|invoices| - 1], activeOnly) + (if activeOnly && !Active(inv) then 0 else inv.total)
  }

  lemma {:induction false} SumTotalsUpdate(invoices: seq<Invoice>, i: nat, inv: Invoice)
    requires i < |invoices| && inv.total == invoices[i].total
    ensures SumTotals(invoices[i := inv], false) == SumTotals(invoices, false)
    ensures SumTotals(invoices[i := inv], true)
         == SumTotals(invoices, true) + (if Active(inv) then inv.total else 0) - (if Active(invoices[i]) then inv.total else 0)
  {
    var n := |invoices| - 1;
    if i < n {
      assert invoices[i := inv][..n] == invoices[..n][i := inv];
      SumTotalsUpdate(invoices[..n], i, inv);
    } else {
      assert invoices[i := inv][..n] == invoices[..n];
    }
  }

  lemma {:induction false} SumTotalsFrame(a: seq<Invoice>, b: seq<Invoice>, activeOnly: bool)
    requires |a| == |b| && forall i :: 0 <= i < |a| ==> SameDocument(a[i], b[i])
    ensures SumTotals(a, activeOnly) == SumTotals(b, activeOnly)
  {
    if a != [] {
      var n := |a| - 1;
      assert SameDocument(a[n], b[n]);
      SumTotalsFrame(a[..n], b[..n], activeOnly);
    }
  }

  /** Cancelled documents and their counter-documents weigh nothing: all documents sum to the active ones. */
  predicate RevenueOk(db: Db) {
    SumTotals(db.invoices, false) == SumTotals(db.invoices, true)
  }

  lemma IssuingKeepsRevenue(db: Db, op: Op)
    requires RevenueOk(db) && Issues(op)
    ensures RevenueOk(Step(db, op))
  {
    hide OpenLines, NumberIsTaken, Compliant, Gross, LockAll, Negated, DropInvoice;
    var next := Step(db, op);
    var n := |db.invoices|;
    if op.OpCreateInvoice? && next != db {
      assert next.invoices[..n] == db.invoices;
    } else if op.OpCancelInvoice? && next != db {
      var voided := db.invoices[op.invoice := db.invoices[op.invoice].(canceled := true, paid := 0)];
      SumTotalsUpdate(db.invoices, op.invoice, voided[op.invoice]);
      assert next.invoices[..n] == voided;
    }
  }

  lemma {:induction false} RunKeepsRevenue(db: Db, ops: seq<Op>)
    requires Valid(db) && RevenueOk(db)
    ensures RevenueOk(Run(db, ops))
  {
    hide Valid, Step;
    if ops != [] {
      var mid, op := Run(db, ops[..|ops| - 1]), ops[|ops| - 1];
      RunKeepsRevenue(db, ops[..|ops| - 1]);
      RunKeepsValid(db, ops[..|ops| - 1]);
      if Issues(op) {
        IssuingKeepsRevenue(mid, op);
      } else if op.OpSaveSettings? {
        SettingsKeepInvoices(mid, op);
      } else {
        ValidIds(mid);
        BookingKeepsDocuments(mid, op);
        SumTotalsFrame(mid.invoices, Step(mid, op).invoices, false);
        SumTotalsFrame(mid.invoices, Step(mid, op).invoices, true);
      }
    }
  }

  lemma SettingsKeepInvoices(db: Db, op: Op)
    requires op.OpSaveSettings?
    ensures Step(db, op).invoices == db.invoices
  {
  }

  // ---------- billed charges ----------

  /** The row of a charge: who owes it, for which vehicle, how much and how often. */
  predicate HasCharge(charges: seq<ChargeRow>, c: ChargeRow) {
    exists m :: 0 <= m < |charges| && SameRow(charges[m], c)
  }

  lemma LockedChargeStays(db: Db, op: Op, c: ChargeRow)
    requires Valid(db) && HasCharge(db.charges, c) && FinanciallyLocked(db, c.id)
    ensures HasCharge(Step(db, op).charges, c)
  {
    hide Valid, FinanciallyLocked, CreateInvoice, CancelInvoice, PayInvoices, ApplyCredit, ReversePayment, SettleExtras,
      CreateDeposit, AssignBank, UpdateCharge, DeleteCharge, LedgerMoney.MoneyOk, ChargeIdsOk;
    ValidIds(db);
    var next := Step(db, op);
    var m :| 0 <= m < |db.charges| && SameRow(db.charges[m], c);
    match op
    case OpUpdateCharge(id, person, vehicle, amount, quantity, on) =>
      UpdateKeepsLocked(db, m, id, person, vehicle, amount, quantity, on);
    case OpDeleteCharge(id) => DeleteKeepsLocked(db, m, id);
    case OpCreateCharge(_, _, _, _, _) => assert next.charges[m] == db.charges[m];
    case OpReverse(p) => OtherStepsKeepRows(db, op); assert SameRow(db.charges[m], next.charges[m]);
    case OpSettleExtras(_, _, _, _) => OtherStepsKeepRows(db, op); assert SameRow(db.charges[m], next.charges[m]);
    case _ => OtherStepsKeepCharges(db, op);
  }

  lemma ValidIds(db: Db)
    requires Valid(db)
    ensures LedgerMoney.MoneyOk(db) && ChargeIdsOk(db)
  {
  }

  lemma UpdateKeepsLocked(
    db: Db, m: nat, id: nat, person: nat, vehicle: Option<nat>, amount: int, quantity: int, on: nat)
    requires ChargeIdsOk(db) && m < |db.charges| && FinanciallyLocked(db, db.charges[m].id)
    ensures var next := Apply(db, UpdateCharge(db, id, person, vehicle, amount, quantity, on));
      |next.charges| == |db.charges| && SameRow(next.charges[m], db.charges[m])
  {
    hide FinanciallyLocked, FindCharge;
  }

  lemma DeleteKeepsLocked(db: Db, m: nat, id: nat)
    requires ChargeIdsOk(db) && m < |db.charges| && FinanciallyLocked(db, db.charges[m].id)
    ensures db.charges[m] in Apply(db, DeleteCharge(db, id)).charges
  {
    var o := DeleteCharge(db, id);
    hide FinanciallyLocked;
    if o.Committed? {
      var k := FindCharge(db.charges, id, |db.charges|).value;
      hide FindCharge;
      if m < k { assert o.db.charges[m] == db.charges[m]; } else { assert o.db.charges[m - 1] == db.charges[m]; }
    }
  }

  lemma OtherStepsKeepRows(db: Db, op: Op)
    requires op.OpReverse? || op.OpSettleExtras?
    ensures SameRows(db.charges, Step(db, op).charges)
  {
    hide GiveBack, Reopen, DropPayment, DropAllocs, SumAllocs, ExtraAllocs, IsOpenExtra;
  }

  lemma OtherStepsKeepCharges(db: Db, op: Op)
    requires LedgerMoney.MoneyOk(db)
    requires !op.OpReverse? && !op.OpSettleExtras? && !op.OpUpdateCharge? && !op.OpDeleteCharge? && !op.OpCreateCharge?
    ensures Step(db, op).charges == db.charges
  {
    hide Valid, PayInvoices, ApplyCredit, CreateDeposit, AssignBank;
    match op
    case OpPay(req, actor, key) =>
      PayKeepsDocuments(db, req, actor, KeyOf(key));
    case OpApplyCredit(person) => CreditKeepsDocuments(db, person);
    case OpCreateDeposit(person, known, kind, amount, actor) => DepositKeepsDocuments(db, person, known, kind, amount, actor);
    case OpAssignBank(tx, target, actor) => AssignKeepsDocuments(db, tx, target, actor);
    case _ =>
      hide OpenLines, NumberIsTaken, Compliant, Gross, LockAll, Negated, DropInvoice,
        Balance, FindDeposit, DropDeposit, Unresolved;
  }

  /** While a charge is on an invoice or covered by a receipt, its owner, vehicle, amount and quantity stand. */
  lemma {:induction false} BilledChargeIsFrozen(db: Db, ops: seq<Op>, c: ChargeRow)
    requires Valid(db) && HasCharge(db.charges, c)
    requires forall k :: 0 <= k < |ops| ==> FinanciallyLocked(Run(db, ops[..k]), c.id)
    ensures HasCharge(Run(db, ops).charges, c)
  {
    hide Valid, Step, HasCharge, FinanciallyLocked;
    if ops != [] {
      var n := |ops| - 1;
      forall k | 0 <= k < n ensures FinanciallyLocked(Run(db, ops[..n][..k]), c.id) {
        assert ops[..n][..k] == ops[..k];
      }
      BilledChargeIsFrozen(db, ops[..n], c);
      RunKeepsValid(db, ops[..n]);
      assert FinanciallyLocked(Run(db, ops[..n]), c.id);
      LockedChargeStays(Run(db, ops[..n]), ops[n], c);
    }
  }

  // ---------- idempotent payments ----------

  /** Sending a keyed payment again replays it: no second receipt, no money moved. */
  lemma RepeatedPaymentIsReplayed(db: Db, req: Request, actor: nat, text: string)
    requires Valid(db) && RecordPayment(db, req, actor, ClientKey(text)).Paid?
    ensures var next := RecordPayment(db, req, actor, ClientKey(text)).db;
      RecordPayment(next, req, actor, ClientKey(text)) == Replayed(|db.payments|)
  {
    var r := RecordPayment(db, req, actor, ClientKey(text));
    RecordPaymentBooks(db, req, actor, ClientKey(text));
    PayKeepsValid(db, req, actor, ClientKey(text));
    assert KeysOk(r.db) by { hide LedgerMoney.MoneyOk, ClaimsOk, RecordPayment; }
    assert r.db.payments[|db.payments|].key == ClientKey(text) && r.db.payments[|db.payments|].request == req;
    hide Valid, LedgerMoney.MoneyOk, ClaimsOk, ReceiptsOk, BookLoop, OpenOldestFirst, FindKey, Explicit;
  }
}
