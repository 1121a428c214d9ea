/**
 When each transaction on documents, extras, deposits, bank rows and charges commits and what it
 then changes, said on the tables before and after.
 */
module DocumentOutcomes {
  import opened Calendar
  import opened PeriodKeys
  import opened Accrual
  import opened OwedLines
  import opened InvoiceLines
  import opened BilledLines
  import opened LedgerState
  import opened LedgerMoney
  import opened LedgerBooks
  import opened LedgerClaims
  import opened LedgerReceipts
  import opened LedgerRuns
  import opened LedgerHistory

  // ---------- issuing ----------

  /** An active document of the person holds the position. */
  predicate Held(db: Db, person: nat, p: Position) {
    && p in db.sources && db.sources[p] < |db.invoices|
    && db.invoices[db.sources[p]].person == person && !db.invoices[db.sources[p]].canceled
  }

  /** A charge row of the person that is neither paid nor covered by a receipt is billed on its day at its price. */
  predicate ChargeRowBills(db: Db, person: nat, c: ChargeRow, it: OwedItem) {
    && c.person == person && !c.paid && (forall k :: 0 <= k < |db.allocs| ==> db.allocs[k].charge != c.id)
    && it.amount > 0 && ChargePrice(c.amount, c.quantity, it.amount)
    && it.position == Position(OneOffCharge, c.id, "") && it.date == c.on && it.lastDay == c.on
  }

  /** The rows of the person that owe a line, apart from what is invoiced already. */
  ghost predicate RowsOwe(db: Db, person: nat, acc: Accounts, asOf: nat, it: OwedItem) {
    || (exists c :: c in db.charges && ChargeRowBills(db, person, c, it))
    || (exists v :: v in acc.vehicles && VehicleBills(v, asOf, {}, it))
    || (exists s :: s in acc.agreements && SourceRowBills(s, asOf, {}, it))
    || (exists s :: s in acc.recurring && SourceRowBills(s, asOf, {}, it))
  }

  lemma {:induction false} ChargesAreRows(db: Db, person: nat, n: nat, c: Charge)
    requires n <= |db.charges|
    ensures c in ChargesOf(db, person, n)
      <==> exists m :: 0 <= m < n && db.charges[m].person == person && c == ChargeOf(db, db.charges[m])
  {
    hide ChargeOf;
    if n > 0 { ChargesAreRows(db, person, n - 1, c); }
  }

  lemma ChargeRowsBill(db: Db, person: nat, locked: set<Position>, it: OwedItem)
    ensures (exists c :: c in ChargesOf(db, person, |db.charges|) && ChargeBills(c, locked, it))
      <==> it.position !in locked && exists c :: c in db.charges && ChargeRowBills(db, person, c, it)
  {
    hide ChargesOf, ChargePrice;
    var charges := ChargesOf(db, person, |db.charges|);
    if c :| c in charges && ChargeBills(c, locked, it) {
      ChargesAreRows(db, person, |db.charges|, c);
      var m :| 0 <= m < |db.charges| && db.charges[m].person == person && c == ChargeOf(db, db.charges[m]);
      assert ChargeRowBills(db, person, db.charges[m], it);
    }
    if it.position !in locked {
      if c :| c in db.charges && ChargeRowBills(db, person, c, it) {
        ChargesAreRows(db, person, |db.charges|, ChargeOf(db, c));
        assert ChargeBills(ChargeOf(db, c), locked, it);
      }
    }
  }

  lemma LocksApart(a: Terms, asOf: nat, s: Settlement, kind: Kind, ref: nat, locked: set<Position>, it: OwedItem)
    ensures (exists i :: Bills(a, asOf, s, kind, ref, locked, i, it))
      <==> it.position !in locked && exists i :: Bills(a, asOf, s, kind, ref, {}, i, it)
  {
    forall i: nat
      ensures Bills(a, asOf, s, kind, ref, locked, i, it) <==> it.position !in locked && Bills(a, asOf, s, kind, ref, {}, i, it)
    {
      BillsApart(a, asOf, s, kind, ref, locked, i, it);
    }
    hide Bills;
  }

  lemma BillsApart(a: Terms, asOf: nat, s: Settlement, kind: Kind, ref: nat, locked: set<Position>, i: nat, it: OwedItem)
    ensures Bills(a, asOf, s, kind, ref, locked, i, it) <==> it.position !in locked && Bills(a, asOf, s, kind, ref, {}, i, it)
  {
    hide Over, Cost, Owed, FirstDay, DayAfter, PeriodKey;
  }

  lemma RowsApart(acc: AccountRows, asOf: nat, locked: set<Position>, it: OwedItem)
    ensures (exists v :: v in acc.vehicles && VehicleBills(v, asOf, locked, it))
      <==> it.position !in locked && exists v :: v in acc.vehicles && VehicleBills(v, asOf, {}, it)
    ensures (exists s :: s in acc.agreements && SourceRowBills(s, asOf, locked, it))
      <==> it.position !in locked && exists s :: s in acc.agreements && SourceRowBills(s, asOf, {}, it)
    ensures (exists s :: s in acc.recurring && SourceRowBills(s, asOf, locked, it))
      <==> it.position !in locked && exists s :: s in acc.recurring && SourceRowBills(s, asOf, {}, it)
  {
    forall v: Vehicle ensures VehicleBills(v, asOf, locked, it) <==> it.position !in locked && VehicleBills(v, asOf, {}, it) {
      LocksApart(v.terms, asOf, RentSettled(v), VehicleRent, v.id, locked, it);
    }
    forall s: Source ensures SourceRowBills(s, asOf, locked, it) <==> it.position !in locked && SourceRowBills(s, asOf, {}, it) {
      LocksApart(s.terms, asOf, s.settlement, s.kind, s.ref, locked, it);
    }
    hide VehicleBills, SourceRowBills;
  }

  /** The open lines of a person are exactly what the rows owe and no active document of theirs holds. */
  lemma OpenLinesAre(db: Db, person: nat, acc: Accounts, asOf: nat, it: OwedItem)
    requires Parses(asOf)
    ensures it in OpenLines(db, person, acc, asOf) <==> !Held(db, person, it.position) && RowsOwe(db, person, acc, asOf, it)
  {
    var locked := LockedPositions(db, person);
    assert it.position in locked <==> Held(db, person, it.position);
    hide LockedPositions, Held, AllLines, VehicleBills, SourceRowBills, ChargeBills, ChargeRowBills, ChargesOf, Parses;
    InvoiceBills(BillableOf(db, person, acc), asOf, locked, it);
    ChargeRowsBill(db, person, locked, it);
    RowsApart(acc, asOf, locked, it);
  }

  /** Subtotal plus tax in percent, the tax to the nearest cent. */
  predicate WithTax(subtotal: int, rate: nat, total: int) {
    2 * subtotal * rate - 100 < 200 * (total - subtotal) <= 2 * subtotal * rate + 100
  }

  lemma GrossIsWithTax(subtotal: int, rate: nat)
    requires subtotal >= 0
    ensures WithTax(subtotal, rate, Gross(subtotal, rate))
  {
    var n := subtotal * rate;
    assert n >= 0;
    var r := RoundDiv(n, 100);
    assert 2 * n == 2 * subtotal * rate;
  }

  /** Somebody else's active document holds a position among the lines. */
  predicate HeldByAnother(db: Db, person: nat, lines: seq<OwedItem>) {
    exists k :: 0 <= k < |lines| && lines[k].position in db.sources
      && db.sources[lines[k].position] < |db.invoices| && db.invoices[db.sources[lines[k].position]].person != person
  }

  predicate NumberIsUsed(db: Db, text: string) {
    exists i :: 0 <= i < |db.invoices| && db.invoices[i].number == text
  }

  /** Seller and buyer are given, and above 400 euros the buyer's address. */
  predicate HasParticulars(p: Particulars, total: int) {
    p.seller && p.buyerName && (total <= 40000 || p.buyerAddress)
  }

  /** The document a person is issued: the open lines, their sum with tax, and the next number. */
  ghost predicate IsIssued(db: Db, person: nat, acc: Accounts, rate: nat, asOf: nat, inv: Invoice) {
    && inv.person == person && inv.issued == asOf && inv.paid == 0 && !inv.canceled && inv.cancels.None?
    && inv.no == db.nextNo && inv.number == db.prefix + Padded(db.nextNo, db.pad)
    && WithTax(SumLines(inv.lines), rate, inv.total) && DistinctPositions(inv.lines)
    && (forall it :: it in inv.lines <==> !Held(db, person, it.position) && RowsOwe(db, person, acc, asOf, it))
  }

  /** It is added, its positions are locked for it, the number moves on, and nothing else changes. */
  ghost predicate AddsDocument(db: Db, next: Db, inv: Invoice) {
    && next == db.(nextNo := db.nextNo + 1, invoices := db.invoices + [inv], sources := next.sources)
    && (forall p :: p in next.sources <==> p in db.sources || exists k :: 0 <= k < |inv.lines| && inv.lines[k].position == p)
    && (forall p :: p in db.sources ==> next.sources[p] == db.sources[p])
    && (forall k :: 0 <= k < |inv.lines| ==> inv.lines[k].position in next.sources && next.sources[inv.lines[k].position] == |db.invoices|)
  }

  lemma LockedForIt(db: Db, next: Db, lines: seq<OwedItem>)
    requires next.sources == LockLines(db.sources, lines, |db.invoices|)
    requires forall p :: p in Positions(lines) ==> p !in db.sources
    ensures forall p :: p in next.sources <==> p in db.sources || exists k :: 0 <= k < |lines| && lines[k].position == p
    ensures forall p :: p in db.sources ==> next.sources[p] == db.sources[p]
    ensures forall k :: 0 <= k < |lines| ==> lines[k].position in next.sources && next.sources[lines[k].position] == |db.invoices|
  {
    LockLinesAdds(db.sources, lines, |db.invoices|);
    hide LockLines;
  }

  /** An invoice bills exactly what the rows owe, at its sum with tax, under the next number. */
  lemma InvoiceIsIssued(db: Db, person: nat, acc: Accounts, rate: nat, parts: Particulars, asOf: nat) returns (inv: Invoice)
    requires Parses(asOf) && CreateInvoice(db, person, true, acc, rate, parts, asOf).Committed?
    ensures IsIssued(db, person, acc, rate, asOf, inv) && inv.lines != [] && HasParticulars(parts, inv.total)
    ensures AddsDocument(db, CreateInvoice(db, person, true, acc, rate, parts, asOf).db, inv)
  {
    hide CreateInvoice, AddsDocument, RowsOwe, Held, WithTax, DistinctPositions, Parses, OpenLines, Padded;
    inv := IssuedAdds(db, person, acc, rate, parts, asOf);
    IssuedFields(db, person, acc, rate, parts, asOf);
    forall it ensures it in inv.lines <==> !Held(db, person, it.position) && RowsOwe(db, person, acc, asOf, it) {
      OpenLinesAre(db, person, acc, asOf, it);
    }
  }

  lemma IssuedAdds(db: Db, person: nat, acc: Accounts, rate: nat, parts: Particulars, asOf: nat) returns (inv: Invoice)
    requires CreateInvoice(db, person, true, acc, rate, parts, asOf).Committed?
    ensures var next := CreateInvoice(db, person, true, acc, rate, parts, asOf).db;
      && AddsDocument(db, next, inv) && |next.invoices| == |db.invoices| + 1 && inv == next.invoices[|db.invoices|]
      && Active(inv) && inv.person == person && inv.lines == OpenLines(db, person, acc, asOf) && DistinctPositions(inv.lines)
  {
    hide CreateInvoice, OpenLines, DistinctPositions, Positions, LockLines;
    inv := IssuedState(db, person, acc, rate, parts, asOf);
    LockedForIt(db, CreateInvoice(db, person, true, acc, rate, parts, asOf).db, inv.lines);
  }

  lemma IssuedFields(db: Db, person: nat, acc: Accounts, rate: nat, parts: Particulars, asOf: nat)
    requires CreateInvoice(db, person, true, acc, rate, parts, asOf).Committed?
    ensures var next := CreateInvoice(db, person, true, acc, rate, parts, asOf).db;
      && |next.invoices| == |db.invoices| + 1
      && var inv := next.invoices[|db.invoices|];
      && inv.issued == asOf && inv.paid == 0 && inv.no == db.nextNo && inv.number == db.prefix + Padded(db.nextNo, db.pad)
      && WithTax(SumLines(inv.lines), rate, inv.total) && inv.lines != [] && HasParticulars(parts, inv.total)
  {
    var lines := OpenLines(db, person, acc, asOf);
    AllLinesFresh(BillableOf(db, person, acc), asOf, LockedPositions(db, person));
    FreshLinesSum(lines, LockedPositions(db, person));
    hide OpenLines, Gross, LockAll, NumberIsTaken, WithTax, Padded, FreshLines;
    GrossIsWithTax(SumLines(lines), rate);
  }

  /**
   A person is invoiced if and only if they exist, some row owes a line, the particulars are there,
   the next number is free, and nobody else's document holds one of the positions.
   */
  lemma InvoiceIsIssuedIff(db: Db, person: nat, known: bool, acc: Accounts, rate: nat, parts: Particulars, asOf: nat)
    requires ClaimsOk(db) && ClockOk(asOf)
    ensures var lines := OpenLines(db, person, acc, asOf);
      CreateInvoice(db, person, known, acc, rate, parts, asOf).Committed? <==>
        && known && lines != [] && HasParticulars(parts, Gross(SumLines(lines), rate))
        && !NumberIsUsed(db, db.prefix + Padded(db.nextNo, db.pad)) && !HeldByAnother(db, person, lines)
  {
    var lines := OpenLines(db, person, acc, asOf);
    OwnLinesAreFree(db, person, acc, asOf);
    ClaimedChargesAreNotBilled(db, person, acc, asOf);
    LockAllSound(db, db.sources, lines, |db.invoices|);
    AnotherHolds(db, person, lines);
    hide OpenLines, Gross, DistinctPositions, Claimed, Positions, LockAll, LockLines, ClaimsOk, LockedPositions, Padded,
      HeldByAnother, ClockOk;
  }

  lemma AnotherHolds(db: Db, person: nat, lines: seq<OwedItem>)
    requires SourcesOk(db)
    requires forall p :: p in Positions(lines) && p in db.sources ==>
      Owns(db, db.sources[p], p) && db.invoices[db.sources[p]].person != person
    ensures HeldByAnother(db, person, lines) <==> exists p :: p in Positions(lines) && p in db.sources
  {
    if p :| p in Positions(lines) && p in db.sources {
      var k :| 0 <= k < |lines| && lines[k].position == p;
      assert lines[k].position in db.sources && Owns(db, db.sources[p], p);
    }
    if HeldByAnother(db, person, lines) {
      var k :| 0 <= k < |lines| && lines[k].position in db.sources;
      assert lines[k].position in Positions(lines);
    }
    hide SourcesOk;
  }

  // ---------- cancelling ----------

  /** An active document is cancelled exactly if it exists and the next number is free. */
  lemma StornoIsIssuedIff(db: Db, id: nat, asOf: nat)
    ensures CancelInvoice(db, id, asOf).Committed? <==>
      && id < |db.invoices| && !db.invoices[id].canceled && db.invoices[id].cancels.None?
      && !NumberIsUsed(db, db.prefix + Padded(db.nextNo, db.pad))
  {
    hide Padded, DropInvoice, Negated;
  }

  /**
   The Storno negates the document line by line and in total, under the next number; the document is
   marked, its money goes back to its receipts, and its positions are free.
   */
  lemma StornoNegates(db: Db, id: nat, asOf: nat)
    requires CancelInvoice(db, id, asOf).Committed?
    ensures id < |db.invoices|
    ensures var next, o, n := CancelInvoice(db, id, asOf).db, db.invoices[id], |db.invoices|;
      && |next.invoices| == n + 1 && next.invoices[id] == o.(canceled := true, paid := 0)
      && (forall i :: 0 <= i < n && i != id ==> next.invoices[i] == db.invoices[i])
      && var storno := next.invoices[n];
      && storno.person == o.person && storno.issued == asOf && storno.total == -o.total && storno.paid == 0
      && storno.cancels == Some(id) && !storno.canceled
      && storno.no == db.nextNo && storno.number == db.prefix + Padded(db.nextNo, db.pad) && next.nextNo == db.nextNo + 1
      && |storno.lines| == |o.lines|
      && forall k :: 0 <= k < |o.lines| ==> storno.lines[k] == o.lines[k].(amount := -o.lines[k].amount)
    ensures var next := CancelInvoice(db, id, asOf).db;
      && (forall l :: l in next.links <==> l in db.links && l.invoice != id)
      && (forall p :: p in next.sources <==> p in db.sources && db.sources[p] != id)
      && (forall p :: p in next.sources ==> next.sources[p] == db.sources[p])
      && next.payments == db.payments && next.allocs == db.allocs && next.charges == db.charges && next.deposits == db.deposits
      && next.bank == db.bank
  {
    hide Padded, NumberIsTaken;
    DropsItsLinks(db.links, id);
    hide DropInvoice;
  }

  lemma {:induction false} DropsItsLinks(links: seq<Link>, i: nat)
    ensures forall l :: l in DropInvoice(links, i) <==> l in links && l.invoice != i
  {
    if links != [] {
      var n := |links| - 1;
      DropsItsLinks(links[..n], i);
      assert links == links[..n] + [links[n]];
    }
  }

  // ---------- settings ----------

  /** Saving the settings sets prefix and width and moves the number forward, never back. */
  lemma SettingsMoveForward(db: Db, next: int, prefix: string, pad: int)
    ensures var after := SaveSettings(db, next, prefix, pad);
      && after.nextNo >= db.nextNo && after.nextNo >= next && (after.nextNo == db.nextNo || after.nextNo == next || after.nextNo == 1)
      && after.prefix == prefix && (if 1 <= pad <= 10 then after.pad == pad else after.pad == 4)
      && after == db.(nextNo := after.nextNo, prefix := after.prefix, pad := after.pad)
  {
  }

  // ---------- extras ----------

  /** An extra of a covered vehicle that nobody has paid, billed or covered, with a price. */
  predicate Settles(db: Db, person: nat, covered: set<nat>, c: ChargeRow, price: int) {
    && c.person == person && c.vehicle.Some? && c.vehicle.value in covered && !c.paid
    && (forall k :: 0 <= k < |db.allocs| ==> db.allocs[k].charge != c.id)
    && Position(OneOffCharge, c.id, "") !in db.sources
    && price > 0 && ChargePrice(c.amount, c.quantity, price)
  }

  lemma SettlesIsOpenExtra(db: Db, person: nat, covered: set<nat>, c: ChargeRow)
    ensures IsOpenExtra(db, person, covered, c) <==> Settles(db, person, covered, c, ChargeTotal(c.amount, c.quantity))
    ensures forall price :: Settles(db, person, covered, c, price) ==> price == ChargeTotal(c.amount, c.quantity)
  {
    forall price: int | price > 0
      ensures ChargeTotal(c.amount, c.quantity) == price <==> ChargePrice(c.amount, c.quantity, price)
    {
      TotalIsPrice(c.amount, c.quantity, price);
    }
    hide ChargeTotal, ChargePrice;
  }

  /**
   Settling pays exactly the open extras: each is marked and gets an allocation of its price from one
   new receipt, which is spent to the cent; with none open nothing happens.
   */
  lemma ExtrasAreSettled(db: Db, person: nat, agreement: nat, covered: set<nat>, actor: nat)
    requires Valid(db)
    ensures var next, n := SettleExtras(db, person, agreement, covered, actor), |db.payments|;
      && |next.charges| == |db.charges|
      && (forall m :: 0 <= m < |db.charges| ==>
            var c := db.charges[m];
            next.charges[m] == c.(paid := c.paid || exists price :: Settles(db, person, covered, c, price)))
      && (forall a :: a in next.allocs <==>
            || a in db.allocs
            || (a.payment == n
                && exists m :: 0 <= m < |db.charges| && db.charges[m].id == a.charge && Settles(db, person, covered, db.charges[m], a.amount)))
      && (if forall m, price :: 0 <= m < |db.charges| ==> !Settles(db, person, covered, db.charges[m], price) then next == db
          else
            && |next.payments| == n + 1 && next.payments[..n] == db.payments
            && next.payments[n].person == person && next.payments[n].settles == Some(agreement) && !next.payments[n].reversed
            && next.payments[n].amount == UsedByAllocs(next.allocs, n)
            && next == db.(payments := next.payments, allocs := next.allocs, charges := next.charges))
  {
    var next, n := SettleExtras(db, person, agreement, covered, actor), |db.payments|;
    forall m | 0 <= m < |db.charges|
      ensures IsOpenExtra(db, person, covered, db.charges[m]) <==> exists price :: Settles(db, person, covered, db.charges[m], price)
    {
      SettlesIsOpenExtra(db, person, covered, db.charges[m]);
    }
    forall a: Alloc
      ensures a in ExtraAllocs(db, person, covered, n, |db.charges|) <==>
        a.payment == n
        && exists m :: 0 <= m < |db.charges| && db.charges[m].id == a.charge && Settles(db, person, covered, db.charges[m], a.amount)
    {
      ExtrasAre(db, person, covered, n, |db.charges|, a);
    }
    AnySettles(db, person, covered, n);
    ExtrasSpendTheirReceipt(db, person, agreement, covered, actor);
    hide Valid, ExtraAllocs, SumAllocs, Settles, IsOpenExtra, UsedByAllocs;
  }

  lemma {:induction false} ExtrasAre(db: Db, person: nat, covered: set<nat>, p: nat, n: nat, a: Alloc)
    requires n <= |db.charges|
    ensures a in ExtraAllocs(db, person, covered, p, n) <==>
      a.payment == p && exists m :: 0 <= m < n && db.charges[m].id == a.charge && Settles(db, person, covered, db.charges[m], a.amount)
  {
    hide Settles, IsOpenExtra, ChargeTotal;
    if n > 0 {
      ExtrasAre(db, person, covered, p, n - 1, a);
      SettlesIsOpenExtra(db, person, covered, db.charges[n - 1]);
    }
  }

  lemma AnySettles(db: Db, person: nat, covered: set<nat>, p: nat)
    ensures SumAllocs(ExtraAllocs(db, person, covered, p, |db.charges|)) > 0
      <==> exists m, price :: 0 <= m < |db.charges| && Settles(db, person, covered, db.charges[m], price)
    ensures SumAllocs(ExtraAllocs(db, person, covered, p, |db.charges|)) <= 0
      ==> ExtraAllocs(db, person, covered, p, |db.charges|) == []
  {
    var n := |db.charges|;
    ExtraAllocsSum(db, person, covered, p, n, p);
    var allocs := ExtraAllocs(db, person, covered, p, n);
    AllocSumNonnegative(allocs, p);
    hide Settles, ExtraAllocs;
    if allocs != [] {
      PositiveSum(allocs);
      ExtrasAre(db, person, covered, p, n, allocs[0]);
      assert allocs[0] in allocs;
    }
    if exists m, price :: 0 <= m < n && Settles(db, person, covered, db.charges[m], price) {
      var m, price :| 0 <= m < n && Settles(db, person, covered, db.charges[m], price);
      ExtrasAre(db, person, covered, p, n, Alloc(db.charges[m].id, p, price));
    }
  }

  lemma {:induction false} PositiveSum(allocs: seq<Alloc>)
    requires forall k :: 0 <= k < |allocs| ==> allocs[k].amount > 0
    ensures allocs != [] ==> SumAllocs(allocs) > 0
  {
    if |allocs| > 1 { PositiveSum(allocs[..|allocs| - 1]); }
  }

  lemma ExtrasSpendTheirReceipt(db: Db, person: nat, agreement: nat, covered: set<nat>, actor: nat)
    requires Valid(db)
    ensures var next, n := SettleExtras(db, person, agreement, covered, actor), |db.payments|;
      next != db ==> |next.payments| == n + 1 && next.payments[n].amount == UsedByAllocs(next.allocs, n)
  {
    var n := |db.payments|;
    var allocs := ExtraAllocs(db, person, covered, n, |db.charges|);
    ExtraAllocsSum(db, person, covered, n, |db.charges|, n);
    AllocsAppend(db.allocs, allocs, n);
    assert forall k :: 0 <= k < |db.allocs| ==> db.allocs[k].payment != n by { assert MoneyOk(db); }
    NoAllocsNoSum(db.allocs, n);
    hide Valid, ExtraAllocs, SumAllocs;
  }

  // ---------- deposits ----------

  predicate HasDeposit(db: Db, d: Deposit) {
    d in db.deposits
  }

  /** A deposit is deleted exactly if it kept no receipt and, if it was received, the balance stays covered; only its row goes. */
  lemma DepositIsDeletedIff(db: Db, d: Deposit)
    requires Valid(db) && HasDeposit(db, d)
    ensures var o := DeleteDeposit(db, d.id);
      && (o.Committed? <==>
            d.payment.None? && (d.kind.Received? ==> d.amount <= Balance(db.deposits, db.payments, d.person)))
      && (o.Committed? ==>
            && (forall e :: HasDeposit(o.db, e) <==> HasDeposit(db, e) && e != d)
            && o.db == db.(deposits := o.db.deposits))
  {
    assert DepositRowsOk(db);
    hide Valid, Balance;
    FoundById(db.deposits, d);
    DroppedById(db.deposits, d.id);
    hide FindDeposit, DropDeposit;
    forall e | e in db.deposits && e.id == d.id ensures e == d { FoundById(db.deposits, e); }
  }

  lemma NoSuchDeposit(db: Db, id: nat)
    requires forall d :: HasDeposit(db, d) ==> d.id != id
    ensures DeleteDeposit(db, id) == RolledBack(NotFound)
  {
    NotFoundById(db.deposits, id);
    hide FindDeposit;
  }

  lemma {:induction false} FoundById(deposits: seq<Deposit>, d: Deposit)
    requires d in deposits && DistinctDeposits(deposits)
    ensures FindDeposit(deposits, d.id) == Some(d)
  {
    var n := |deposits| - 1;
    if deposits[n] != d {
      assert d in deposits[..n] by { assert deposits == deposits[..n] + [deposits[n]]; }
      FoundById(deposits[..n], d);
    }
  }

  lemma {:induction false} NotFoundById(deposits: seq<Deposit>, id: nat)
    requires forall d :: d in deposits ==> d.id != id
    ensures FindDeposit(deposits, id).None?
  {
    if deposits != [] { NotFoundById(deposits[..|deposits| - 1], id); }
  }

  lemma {:induction false} DroppedById(deposits: seq<Deposit>, id: nat)
    ensures forall e :: e in DropDeposit(deposits, id) <==> e in deposits && e.id != id
  {
    if deposits != [] {
      var n := |deposits| - 1;
      DroppedById(deposits[..n], id);
      assert deposits == deposits[..n] + [deposits[n]];
    }
  }

  // ---------- reversing ----------

  /** A receipt is reversed exactly if it exists, stands, and was not booked for a period. */
  lemma ReversedIff(db: Db, p: nat)
    ensures ReversePayment(db, p).Committed? <==> p < |db.payments| && !db.payments[p].reversed && db.payments[p].settles.None?
  {
    hide GiveBack, DropPayment, DropAllocs, Unstamp, Reopen;
  }

  /** A standalone charge that this receipt alone covers is open again. */
  predicate OpensAgain(db: Db, p: nat, c: ChargeRow) {
    && c.vehicle.None? && (exists k :: 0 <= k < |db.allocs| && db.allocs[k].payment == p && db.allocs[k].charge == c.id)
    && forall k :: 0 <= k < |db.allocs| && db.allocs[k].charge == c.id ==> db.allocs[k].payment == p
  }

  lemma {:induction false} UnstampedIs(db: Db, p: nat, n: nat, m: nat)
    requires m < n <= |db.charges|
    ensures Unstamp(db, p, n)[m] == if OpensAgain(db, p, db.charges[m]) then db.charges[m].(paid := false) else db.charges[m]
  {
    if m < n - 1 { UnstampedIs(db, p, n - 1, m); }
  }

  /**
   A reversal marks the receipt, takes its links and allocations away, takes exactly their money off
   the documents, opens the standalone charges it alone covered, and frees its bank transaction.
   */
  lemma ReversalTakesBack(db: Db, p: nat)
    requires Valid(db) && ReversePayment(db, p).Committed?
    ensures var next := ReversePayment(db, p).db;
      && p < |db.payments| && next.payments == db.payments[p := db.payments[p].(reversed := true)]
      && |next.invoices| == |db.invoices|
      && (forall i :: 0 <= i < |db.invoices| ==>
            next.invoices[i] == db.invoices[i].(paid := db.invoices[i].paid - LinkedVia(db.links, i, p)))
      && (forall l :: l in next.links <==> l in db.links && l.payment != p)
      && (forall a :: a in next.allocs <==> a in db.allocs && a.payment != p)
      && |next.charges| == |db.charges|
      && (forall m :: 0 <= m < |db.charges| ==>
            next.charges[m] == if OpensAgain(db, p, db.charges[m]) then db.charges[m].(paid := false) else db.charges[m])
      && next.bank.Keys == db.bank.Keys
      && (forall t :: t in db.bank ==>
            next.bank[t] == if db.bank[t].status.Assigned? && db.bank[t].payment == Some(p)
                            then db.bank[t].(status := Open, person := None) else db.bank[t])
      && next.sources == db.sources && next.deposits == db.deposits && next.nextNo == db.nextNo
  {
    ReversedIff(db, p);
    assert MoneyOk(db);
    hide Valid, MoneyOk, OpensAgain, DropPayment, DropAllocs, Unstamp, GiveBack, LinkedVia;
    forall i | 0 <= i < |db.invoices|
      ensures GiveBack(db.invoices, db.links, p)[i] == db.invoices[i].(paid := db.invoices[i].paid - LinkedVia(db.links, i, p))
    {
      TakenOff(db, p, i);
    }
    DropsItsPayment(db.links, p);
    DropAllocsSum(db.allocs, p, p);
    forall m | 0 <= m < |db.charges|
      ensures Unstamp(db, p, |db.charges|)[m]
           == if OpensAgain(db, p, db.charges[m]) then db.charges[m].(paid := false) else db.charges[m]
    {
      UnstampedIs(db, p, |db.charges|, m);
    }
  }

  lemma TakenOff(db: Db, p: nat, i: nat)
    requires MoneyOk(db) && i < |db.invoices|
    ensures GiveBack(db.invoices, db.links, p)[i] == db.invoices[i].(paid := db.invoices[i].paid - LinkedVia(db.links, i, p))
  {
    forall k | 0 <= k < |db.links| ensures db.links[k].amount > 0 { assert LinkOk(db, db.links[k]); }
    hide LinkOk, UsedOk, AllocRowsOk;
    SumsBounded(db.links, i, p);
    GiveBackExact(db.invoices, db.links, p, i);
  }

  lemma {:induction false} DropsItsPayment(links: seq<Link>, p: nat)
    ensures forall l :: l in DropPayment(links, p) <==> l in links && l.payment != p
  {
    if links != [] {
      var n := |links| - 1;
      DropsItsPayment(links[..n], p);
      assert links == links[..n] + [links[n]];
    }
  }

  // ---------- bank rows ----------

  predicate Freed(db: Db, t: BankTx) {
    t.payment.Some? && t.payment.value < |db.payments| && db.payments[t.payment.value].reversed
  }

  /** A row is put aside only while nobody uses its money, and taken back only while it is put aside. */
  lemma IgnoredIff(db: Db, tx: nat, ignored: bool)
    ensures var o := SetIgnored(db, tx, ignored);
      && (o.Committed? <==>
            && tx in db.bank
            && (db.bank[tx].payment.None? || Freed(db, db.bank[tx]))
            && (if ignored then db.bank[tx].status.Open? || (db.bank[tx].status.Assigned? && Freed(db, db.bank[tx]))
                else db.bank[tx].status.Ignored?))
      && (o.Committed? ==>
            o.db == db.(bank := db.bank[tx := db.bank[tx].(status := if ignored then Ignored else Open, person := None)]))
  {
  }

  /** A statement line is imported once. */
  lemma ImportedOnce(db: Db, tx: nat, amount: int, euro: bool, amount': int, euro': bool)
    ensures var next := ImportBank(db, tx, amount, euro);
      && tx in next.bank && (tx !in db.bank ==> next.bank[tx] == BankTx(amount, euro, Open, None, None))
      && (forall t :: t in db.bank ==> t in next.bank && next.bank[t] == db.bank[t])
      && (forall t :: t in next.bank ==> t == tx || t in db.bank)
      && ImportBank(next, tx, amount', euro') == next
  {
  }

  // ---------- one-off charges ----------

  /** On an active document, or covered by a receipt that stands. */
  predicate InUse(db: Db, charge: nat) {
    || Position(OneOffCharge, charge, "") in db.sources
    || exists k :: 0 <= k < |db.allocs| && db.allocs[k].charge == charge
         && db.allocs[k].payment < |db.payments| && !db.payments[db.allocs[k].payment].reversed
  }

  lemma {:induction false} ChargeFound(charges: seq<ChargeRow>, n: nat, k: nat)
    requires k < n <= |charges| && forall i, j :: 0 <= i < j < |charges| ==> charges[i].id != charges[j].id
    ensures FindCharge(charges, charges[k].id, n) == Some(k)
  {
    if k < n - 1 { ChargeFound(charges, n - 1, k); }
  }

  lemma {:induction false} ChargeNotFound(charges: seq<ChargeRow>, n: nat, id: nat)
    requires n <= |charges| && forall i :: 0 <= i < n ==> charges[i].id != id
    ensures FindCharge(charges, id, n).None?
  {
    if n > 0 { ChargeNotFound(charges, n - 1, id); }
  }

  /**
   A charge is changed exactly if it is not in use or keeps owner, vehicle, amount and quantity; the
   row then has what was asked for, and is open again if it changed its vehicle.
   */
  lemma ChargeIsUpdatedIff(db: Db, k: nat, person: nat, vehicle: Option<nat>, amount: int, quantity: int, on: nat)
    requires ChargeIdsOk(db) && k < |db.charges|
    ensures var c := db.charges[k];
      var o := UpdateCharge(db, c.id, person, vehicle, amount, quantity, on);
      && (o.Committed? <==>
            !InUse(db, c.id) || (c.person == person && c.vehicle == vehicle && c.amount == amount && c.quantity == quantity))
      && (o.Committed? ==>
            o.db == db.(charges := db.charges[k :=
              ChargeRow(c.id, person, vehicle, c.paid && c.vehicle == vehicle, amount, quantity, on)]))
  {
    ChargeFound(db.charges, |db.charges|, k);
    hide FindCharge;
  }

  /** A charge is deleted exactly if it is not in use; only its row goes. */
  lemma ChargeIsDeletedIff(db: Db, k: nat)
    requires ChargeIdsOk(db) && k < |db.charges|
    ensures var o := DeleteCharge(db, db.charges[k].id);
      && (o.Committed? <==> !InUse(db, db.charges[k].id))
      && (o.Committed? ==>
            (forall c :: c in o.db.charges <==> c in db.charges && c != db.charges[k]) && o.db == db.(charges := o.db.charges))
  {
    ChargeFound(db.charges, |db.charges|, k);
    hide FindCharge;
    var rest := db.charges[..k] + db.charges[k + 1..];
    forall c | c in db.charges && c != db.charges[k] ensures c in rest {
      var m :| 0 <= m < |db.charges| && db.charges[m] == c;
      assert c == rest[if m < k then m else m - 1];
    }
  }

  lemma NoSuchCharge(db: Db, id: nat, person: nat, vehicle: Option<nat>, amount: int, quantity: int, on: nat)
    requires forall c :: c in db.charges ==> c.id != id
    ensures UpdateCharge(db, id, person, vehicle, amount, quantity, on) == RolledBack(NotFound) == DeleteCharge(db, id)
  {
    ChargeNotFound(db.charges, |db.charges|, id);
    hide FindCharge;
  }

  /** A new charge is open and unlike any before. */
  lemma ChargeIsCreated(db: Db, person: nat, vehicle: Option<nat>, amount: int, quantity: int, on: nat)
    requires ChargeIdsOk(db)
    ensures var next := CreateCharge(db, person, vehicle, amount, quantity, on);
      && |next.charges| == |db.charges| + 1 && next.charges[..|db.charges|] == db.charges
      && var c := next.charges[|db.charges|];
      && c.person == person && c.vehicle == vehicle && !c.paid && c.amount == amount && c.quantity == quantity && c.on == on
      && (forall k :: 0 <= k < |db.charges| ==> db.charges[k].id < c.id < next.nextCharge)
      && next == db.(charges := next.charges, nextCharge := next.nextCharge)
  {
  }
}
