/**
 What each transaction of the ledger may write: only rows of the persons whose locks it takes, the
 bank transaction it names, and the numbering while it issues a document.
 */
module LedgerFootprint {
  import opened PeriodKeys
  import opened Accrual
  import opened OwedLines
  import opened InvoiceLines
  import opened LedgerState
  import opened LedgerMoney
  import opened LedgerBooks
  import opened LedgerCredit
  import opened LedgerClaims
  import opened LedgerReceipts
  import opened LedgerRuns
  import opened LedgerHistory

  // ---------- rows of other persons ----------

  predicate DocumentsStay(db: Db, next: Db, ps: set<nat>) {
    && |db.invoices| <= |next.invoices|
    && (forall i :: 0 <= i < |db.invoices| && db.invoices[i].person !in ps ==> next.invoices[i] == db.invoices[i])
    && (forall i :: 0 <= i < |db.invoices| ==> next.invoices[i].person == db.invoices[i].person)
    && (forall i :: |db.invoices| <= i < |next.invoices| ==> next.invoices[i].person in ps)
  }

  predicate ReceiptsStay(db: Db, next: Db, ps: set<nat>) {
    && |db.payments| <= |next.payments|
    && (forall p :: 0 <= p < |db.payments| && db.payments[p].person !in ps ==> next.payments[p] == db.payments[p])
    && (forall p :: 0 <= p < |db.payments| ==> next.payments[p].person == db.payments[p].person)
    && (forall p :: |db.payments| <= p < |next.payments| ==> next.payments[p].person in ps)
  }

  predicate OthersLink(db: Db, ps: set<nat>, l: Link) {
    l.invoice < |db.invoices| && db.invoices[l.invoice].person !in ps
  }

  ghost predicate LinksStay(db: Db, next: Db, ps: set<nat>) {
    forall l :: OthersLink(db, ps, l) ==> (l in db.links <==> l in next.links)
  }

  predicate OthersAlloc(db: Db, ps: set<nat>, a: Alloc) {
    a.payment < |db.payments| && db.payments[a.payment].person !in ps
  }

  ghost predicate AllocsStay(db: Db, next: Db, ps: set<nat>) {
    forall a :: OthersAlloc(db, ps, a) ==> (a in db.allocs <==> a in next.allocs)
  }

  /** The lock rows of other persons' documents, old and new. */
  predicate LocksStay(db: Db, next: Db, ps: set<nat>) {
    && (forall p :: p in db.sources && db.sources[p] < |db.invoices| && db.invoices[db.sources[p]].person !in ps ==>
          p in next.sources && next.sources[p] == db.sources[p])
    && (forall p :: p in next.sources && next.sources[p] < |db.invoices| && db.invoices[next.sources[p]].person !in ps ==>
          p in db.sources && next.sources[p] == db.sources[p])
  }

  ghost predicate ChargesStay(db: Db, next: Db, ps: set<nat>) {
    forall c: ChargeRow :: c.person !in ps ==> (c in db.charges <==> c in next.charges)
  }

  ghost predicate DepositsStay(db: Db, next: Db, ps: set<nat>) {
    forall d: Deposit :: d.person !in ps ==> (d in db.deposits <==> d in next.deposits)
  }

  /** Bank transactions change only if named, or if they stand for a receipt of these persons. */
  predicate BankStays(db: Db, next: Db, ps: set<nat>, txs: set<nat>) {
    && (forall t :: t in next.bank && t !in txs ==> t in db.bank)
    && (forall t :: t in db.bank && t !in txs ==> t in next.bank && (next.bank[t] == db.bank[t] || StandsForThem(db, ps, t)))
  }

  predicate StandsForThem(db: Db, ps: set<nat>, t: nat)
    requires t in db.bank
  {
    db.bank[t].payment.Some? && db.bank[t].payment.value < |db.payments| && db.payments[db.bank[t].payment.value].person in ps
  }

  predicate NumberingStays(db: Db, next: Db) {
    next.nextNo == db.nextNo && next.prefix == db.prefix && next.pad == db.pad
  }

  ghost predicate StaysWithin(db: Db, next: Db, ps: set<nat>, txs: set<nat>) {
    && DocumentsStay(db, next, ps) && ReceiptsStay(db, next, ps) && LinksStay(db, next, ps) && AllocsStay(db, next, ps)
    && LocksStay(db, next, ps) && ChargesStay(db, next, ps) && DepositsStay(db, next, ps) && BankStays(db, next, ps, txs)
  }

  // ---------- the locks a transaction takes ----------

  function PersonOfDeposit(db: Db, id: nat): set<nat> {
    match FindDeposit(db.deposits, id)
    case None => {}
    case Some(d) => {d.person}
  }

  function PersonOfCharge(db: Db, id: nat): set<nat> {
    match FindCharge(db.charges, id, |db.charges|)
    case None => {}
    case Some(k) => {db.charges[k].person}
  }

  function PersonOfDocument(db: Db, id: nat): set<nat> {
    if id < |db.invoices| then {db.invoices[id].person} else {}
  }

  function PersonOfTarget(db: Db, target: Target): set<nat> {
    match target
    case ToInvoice(i) => PersonOfDocument(db, i)
    case ToPerson(p, _) => {p}
  }

  /** Whose locks: the person's it is about, the owner's of the row it is about, and the new owner's. */
  function PersonsOf(db: Db, op: Op): set<nat> {
    match op
    case OpCreateInvoice(person, _, _, _, _, _) => {person}
    case OpCancelInvoice(id, _) => PersonOfDocument(db, id)
    case OpPay(req, _, _) => {req.person}
    case OpApplyCredit(person) => {person}
    case OpSettleExtras(person, _, _, _) => {person}
    case OpCreateDeposit(person, _, _, _, _) => {person}
    case OpDeleteDeposit(id) => PersonOfDeposit(db, id)
    case OpReverse(p) => if p < |db.payments| then {db.payments[p].person} else {}
    case OpAssignBank(_, target, _) => PersonOfTarget(db, target)
    case OpCreateCharge(person, _, _, _, _) => {person}
    case OpUpdateCharge(id, person, _, _, _, _) => PersonOfCharge(db, id) + {person}
    case OpDeleteCharge(id) => PersonOfCharge(db, id)
    case OpSaveSettings(_, _, _) => {}
    case OpSetIgnored(_, _) => {}
    case OpImportBank(_, _, _) => {}
  }

  function BankRowsOf(op: Op): set<nat> {
    match op
    case OpAssignBank(tx, _, _) => {tx}
    case OpSetIgnored(tx, _) => {tx}
    case OpImportBank(tx, _, _) => {tx}
    case _ => {}
  }

  predicate LocksSettings(op: Op) {
    op.OpCreateInvoice? || op.OpCancelInvoice? || op.OpSaveSettings?
  }

  // ---------- money moved onto documents of one person ----------

  /** Links are only added, and only on documents of `person`; paid amounts follow. */
  ghost predicate LinkedOnly(db: Db, next: Db, person: nat) {
    && PaidFrame(db, next)
    && (forall i :: 0 <= i < |db.invoices| && db.invoices[i].person != person ==> next.invoices[i] == db.invoices[i])
    && (forall l :: l in db.links ==> l in next.links)
    && (forall l :: l in next.links ==> l in db.links || (l.invoice < |db.invoices| && db.invoices[l.invoice].person == person))
  }

  lemma OneLinkOnly(db: Db, i: nat, p: nat, amount: int)
    requires i < |db.invoices|
    ensures LinkedOnly(db, AddLink(db, i, p, amount), db.invoices[i].person)
  {
  }

  lemma LinkedOnlyTwice(db: Db, mid: Db, next: Db, person: nat)
    requires LinkedOnly(db, mid, person) && LinkedOnly(mid, next, person)
    ensures LinkedOnly(db, next, person)
  {
  }

  lemma {:induction false} LoopLinksOnly(
    db: Db, person: nat, ids: seq<nat>, p: nat, remaining: int, explicit: map<nat, int>, auto: bool)
    requires forall k :: 0 <= k < |ids| ==> ids[k] < |db.invoices| && db.invoices[ids[k]].person == person
    ensures LinkedOnly(db, BookLoop(db, ids, p, remaining, explicit, auto).db, person)
    decreases |ids|
  {
    hide LinkedOnly, ShareOf;
    if ids == [] || remaining <= 0 || (explicit == map[] && !auto) {
      NothingLinked(db, person);
    } else {
      var share := ShareOf(OpenAmount(db, ids[0]), remaining, explicit, ids[0]);
      if share <= 0 {
        LoopLinksOnly(db, person, ids[1..], p, remaining, explicit, auto);
      } else {
        var mid := AddLink(db, ids[0], p, share);
        OneLinkOnly(db, ids[0], p, share);
        LoopLinksOnly(mid, person, ids[1..], p, remaining - share, explicit, auto);
        LinkedOnlyTwice(db, mid, BookLoop(mid, ids[1..], p, remaining - share, explicit, auto).db, person);
      }
    }
  }

  lemma NothingLinked(db: Db, person: nat)
    ensures LinkedOnly(db, db, person)
  {
  }

  lemma {:induction false} DrawLinksOnly(db: Db, i: nat, open: int, ids: seq<nat>)
    requires i < |db.invoices| && forall k :: 0 <= k < |ids| ==> ids[k] < |db.payments|
    ensures LinkedOnly(db, DrawFor(db, i, open, ids), db.invoices[i].person)
    decreases |ids|
  {
    hide LinkedOnly, Used;
    if ids == [] || open <= 0 {
      NothingLinked(db, db.invoices[i].person);
    } else {
      var amount := Min(Free(db, ids[0]), open);
      if amount <= 0 {
        DrawLinksOnly(db, i, open, ids[1..]);
      } else {
        var mid := AddLink(db, i, ids[0], amount);
        OneLinkOnly(db, i, ids[0], amount);
        DrawLinksOnly(mid, i, open - amount, ids[1..]);
        LinkedOnlyTwice(db, mid, DrawFor(mid, i, open - amount, ids[1..]), db.invoices[i].person);
      }
    }
  }

  lemma {:induction false} SweepLinksOnly(db: Db, person: nat, open: seq<nat>, ids: seq<nat>)
    requires forall k :: 0 <= k < |open| ==> open[k] < |db.invoices| && db.invoices[open[k]].person == person
    requires forall k :: 0 <= k < |ids| ==> ids[k] < |db.payments|
    ensures LinkedOnly(db, DrawLoop(db, open, ids), person)
    decreases |open|
  {
    hide DrawFor;
    if open == [] {
      NothingLinked(db, person);
    } else {
      var mid := DrawFor(db, open[0], OpenAmount(db, open[0]), ids);
      DrawForShape(db, open[0], OpenAmount(db, open[0]), ids);
      DrawLinksOnly(db, open[0], OpenAmount(db, open[0]), ids);
      SweepLinksOnly(mid, person, open[1..], ids);
      hide LinkedOnly;
      LinkedOnlyTwice(db, mid, DrawLoop(mid, open[1..], ids), person);
    }
  }

  lemma LinkingStaysWithin(db: Db, next: Db, person: nat)
    requires LinkedOnly(db, next, person)
    ensures StaysWithin(db, next, {person}, {})
  {
  }

  /** A receipt of `person`, and links on their documents. */
  lemma BookingStaysWithin(db: Db, next: Db, pay: Payment)
    requires LinkedOnly(AddPayment(db, pay), next, pay.person)
    ensures StaysWithin(db, next, {pay.person}, {})
  {
  }

  lemma RecordingLinksOnly(db: Db, req: Request, actor: nat, key: PaymentKey)
    requires RecordPayment(db, req, actor, key).Paid?
    ensures LinkedOnly(AddPayment(db, Payment(req.person, req.amount, false, None, actor, key, req)),
                       RecordPayment(db, req, actor, key).db, req.person)
  {
    hide BookLoop, FindKey, Explicit, OpenOldestFirst, LinkedOnly, IsOpenItem;
    var ids := OpenOldestFirst(db, req.person);
    OpenOldestFirstIsComplete(db, req.person);
    forall k | 0 <= k < |ids| ensures ids[k] < |db.invoices| && db.invoices[ids[k]].person == req.person {
      OpenIsPositive(db, req.person, ids[k]);
    }
    LoopLinksOnly(AddPayment(db, Payment(req.person, req.amount, false, None, actor, key, req)), req.person, ids,
                  |db.payments|, req.amount, Explicit(req.allocations), req.auto);
  }

  // ---------- transaction by transaction ----------

  lemma IssuingStaysWithin(db: Db, person: nat, known: bool, acc: Accounts, rate: nat, parts: Particulars, asOf: nat)
    ensures StaysWithin(db, Apply(db, CreateInvoice(db, person, known, acc, rate, parts, asOf)), {person}, {})
  {
    hide CreateInvoice, OpenLines, Positions, DistinctPositions, LockLines;
    if CreateInvoice(db, person, known, acc, rate, parts, asOf).Committed? {
      assert known by { OnlyKnownAreBilled(db, person, known, acc, rate, parts, asOf); }
      var inv := IssuedState(db, person, acc, rate, parts, asOf);
      LockLinesAdds(db.sources, inv.lines, |db.invoices|);
    }
  }

  lemma OnlyKnownAreBilled(db: Db, person: nat, known: bool, acc: Accounts, rate: nat, parts: Particulars, asOf: nat)
    requires CreateInvoice(db, person, known, acc, rate, parts, asOf).Committed?
    ensures known
  {
    hide OpenLines, Compliant, Gross, NumberIsTaken, LockAll;
  }

  lemma {:induction false} DropInvoiceRows(links: seq<Link>, i: nat)
    ensures forall l :: l in DropInvoice(links, i) <==> l in links && l.invoice != i
  {
    if links != [] {
      DropInvoiceRows(links[..|links| - 1], i);
      assert links == links[..|links| - 1] + [links[|links| - 1]];
    }
  }

  lemma {:induction false} DropPaymentRows(links: seq<Link>, p: nat)
    ensures forall l :: l in DropPayment(links, p) <==> l in links && l.payment != p
  {
    if links != [] {
      DropPaymentRows(links[..|links| - 1], p);
      assert links == links[..|links| - 1] + [links[|links| - 1]];
    }
  }

  lemma CancellingStaysWithin(db: Db, id: nat, asOf: nat)
    ensures StaysWithin(db, Apply(db, CancelInvoice(db, id, asOf)), PersonOfDocument(db, id), {})
  {
    hide CancelInvoice, DropInvoice;
    if CancelInvoice(db, id, asOf).Committed? {
      var storno := CanceledState(db, id, asOf);
      DropInvoiceRows(db.links, id);
    }
  }

  lemma PayingStaysWithin(db: Db, req: Request, actor: nat, key: PaymentKey)
    ensures StaysWithin(db, Apply(db, PayInvoices(db, req, actor, key)), {req.person}, {})
  {
    hide RecordPayment, StaysWithin, LinkedOnly;
    NothingStaysWithin(db, {req.person}, {});
    var r := RecordPayment(db, req, actor, key);
    if r.Paid? {
      RecordingLinksOnly(db, req, actor, key);
      BookingStaysWithin(db, r.db, Payment(req.person, req.amount, false, None, actor, key, req));
    }
  }

  lemma NothingStaysWithin(db: Db, ps: set<nat>, txs: set<nat>)
    ensures StaysWithin(db, db, ps, txs)
  {
  }

  lemma SweepingStaysWithin(db: Db, person: nat)
    ensures StaysWithin(db, ApplyCredit(db, person), {person}, {})
  {
    hide DrawLoop, StaysWithin, LinkedOnly;
    var open := OpenById(db, person, |db.invoices|);
    forall k | 0 <= k < |open| ensures db.invoices[open[k]].person == person { assert IsOpenItem(db, person, open[k]); }
    SweepLinksOnly(db, person, open, CreditPayments(db, person, |db.payments|));
    LinkingStaysWithin(db, ApplyCredit(db, person), person);
  }

  lemma SettlingStaysWithin(db: Db, person: nat, agreement: nat, covered: set<nat>, actor: nat)
    ensures StaysWithin(db, SettleExtras(db, person, agreement, covered, actor), {person}, {})
  {
    hide ExtraAllocs, SumAllocs, MarkExtras, IsOpenExtra;
    ExtraAllocsSum(db, person, covered, |db.payments|, |db.charges|, |db.payments|);
    forall c: ChargeRow | c.person != person
      ensures c in db.charges <==> c in MarkExtras(db, person, covered, |db.charges|)
    {
      OthersAreNotMarked(db, person, covered, c);
    }
  }

  lemma OthersAreNotMarked(db: Db, person: nat, covered: set<nat>, c: ChargeRow)
    requires c.person != person
    ensures c in db.charges <==> c in MarkExtras(db, person, covered, |db.charges|)
  {
    var marked := MarkExtras(db, person, covered, |db.charges|);
    forall k | 0 <= k < |db.charges| ensures marked[k].person == db.charges[k].person && (db.charges[k].person != person ==> marked[k] == db.charges[k]) { }
    if c in db.charges {
      var k :| 0 <= k < |db.charges| && db.charges[k] == c;
      assert marked[k] == c;
    }
    hide MarkExtras, IsOpenExtra;
  }

  lemma DepositingStaysWithin(db: Db, person: nat, known: bool, kind: DepositKind, amount: int, actor: nat)
    ensures StaysWithin(db, Apply(db, CreateDeposit(db, person, known, kind, amount, actor)), {person}, {})
  {
    hide RecordPayment, Balance, LinkedOnly;
    var o := CreateDeposit(db, person, known, kind, amount, actor);
    if o.Committed? && kind.Withheld? {
      var req, key := Request(person, amount, true, []), DepositKey(db.nextDeposit);
      var r := RecordPayment(db, req, actor, key);
      if r.Paid? {
        RecordingLinksOnly(db, req, actor, key);
        BookingStaysWithin(db, r.db, Payment(person, amount, false, None, actor, key, req));
        BookedKeepsDepositRows(db, r.db, Payment(person, amount, false, None, actor, key, req));
      }
    }
  }

  lemma BookedKeepsDepositRows(db: Db, next: Db, pay: Payment)
    requires LinkedOnly(AddPayment(db, pay), next, pay.person)
    ensures next.deposits == db.deposits
  {
  }

  lemma DeletingDepositStaysWithin(db: Db, id: nat)
    requires DepositRowsOk(db)
    ensures StaysWithin(db, Apply(db, DeleteDeposit(db, id)), PersonOfDeposit(db, id), {})
  {
    hide Balance, DropDeposit, FindDeposit;
    DropDepositRows(db.deposits, id);
    var o := DeleteDeposit(db, id);
    if o.Committed? {
      forall d: Deposit | d.person !in PersonOfDeposit(db, id) ensures d in db.deposits <==> d in o.db.deposits {
        if d in db.deposits && d.id == id { OneRowPerDeposit(db, d, id); }
      }
    }
  }

  lemma OneRowPerDeposit(db: Db, d: Deposit, id: nat)
    requires DepositRowsOk(db) && d in db.deposits && d.id == id && FindDeposit(db.deposits, id).Some?
    ensures FindDeposit(db.deposits, id).value == d
  {
    hide DepositOk, FindDeposit;
    DropDepositRows(db.deposits, id);
    var e := FindDeposit(db.deposits, id).value;
    var i :| 0 <= i < |db.deposits| && db.deposits[i] == d;
    var j :| 0 <= j < |db.deposits| && db.deposits[j] == e;
  }

  // ---------- whose charges a receipt covers ----------

  predicate OwnedBy(charges: seq<ChargeRow>, id: nat, person: nat) {
    exists m :: 0 <= m < |charges| && charges[m].id == id && charges[m].person == person
  }

  /** A receipt only covers charges of its own person. */
  predicate OwnAllocs(db: Db) {
    forall k :: 0 <= k < |db.allocs| && db.allocs[k].payment < |db.payments| ==>
      OwnedBy(db.charges, db.allocs[k].charge, db.payments[db.allocs[k].payment].person)
  }

  lemma ReversingStaysWithin(db: Db, p: nat)
    requires Valid(db) && OwnAllocs(db) && p < |db.payments| && ReversePayment(db, p).Committed?
    ensures StaysWithin(db, ReversePayment(db, p).db, {db.payments[p].person}, {})
  {
    hide Valid, OwnAllocs, DocumentsStay, LinksStay, AllocsStay, ChargesStay, MoneyOk, ChargeIdsOk, GiveBack, Unstamp, DropPayment, DropAllocs;
    ValidIds(db);
    ReversedDocuments(db, p);
    ReversedLinks(db, p);
    ReversedAllocs(db, p);
    ReversedCharges(db, p);
  }

  lemma ReversedDocuments(db: Db, p: nat)
    requires MoneyOk(db) && p < |db.payments| && ReversePayment(db, p).Committed?
    ensures DocumentsStay(db, ReversePayment(db, p).db, {db.payments[p].person})
  {
    hide MoneyOk, GiveBack, Unstamp, DropPayment, DropAllocs, Reopen;
    forall i | 0 <= i < |db.invoices|
      ensures db.invoices[i].person != db.payments[p].person ==> GiveBack(db.invoices, db.links, p)[i] == db.invoices[i]
      ensures GiveBack(db.invoices, db.links, p)[i].person == db.invoices[i].person
    {
      OthersKeepTheirPaid(db, p, i);
      ReversalOfInvoices(db, p, i);
    }
  }

  lemma ReversedLinks(db: Db, p: nat)
    requires MoneyOk(db) && p < |db.payments| && ReversePayment(db, p).Committed?
    ensures LinksStay(db, ReversePayment(db, p).db, {db.payments[p].person})
  {
    hide MoneyOk, GiveBack, Unstamp, DropPayment, DropAllocs, Reopen;
    DropPaymentRows(db.links, p);
    forall l | OthersLink(db, {db.payments[p].person}, l) ensures l in db.links ==> l.payment != p {
      if l in db.links { LinkIsOfItsPayer(db, l); }
    }
  }

  lemma ReversedAllocs(db: Db, p: nat)
    requires p < |db.payments| && ReversePayment(db, p).Committed?
    ensures AllocsStay(db, ReversePayment(db, p).db, {db.payments[p].person})
  {
    hide GiveBack, Unstamp, DropPayment, DropAllocs, Reopen;
    DropAllocsSum(db.allocs, p, p);
  }

  lemma ReversedCharges(db: Db, p: nat)
    requires ChargeIdsOk(db) && OwnAllocs(db) && p < |db.payments| && ReversePayment(db, p).Committed?
    ensures ChargesStay(db, ReversePayment(db, p).db, {db.payments[p].person})
  {
    hide ChargeIdsOk, OwnAllocs, GiveBack, Unstamp, DropPayment, DropAllocs, Reopen;
    forall c: ChargeRow | c.person !in {db.payments[p].person} ensures c in db.charges <==> c in Unstamp(db, p, |db.charges|) {
      OthersAreNotUnstamped(db, p, c);
    }
  }

  lemma OthersKeepTheirPaid(db: Db, p: nat, i: nat)
    requires MoneyOk(db) && p < |db.payments| && i < |db.invoices|
    ensures db.invoices[i].person != db.payments[p].person ==> GiveBack(db.invoices, db.links, p)[i] == db.invoices[i]
  {
    ReversalOfInvoices(db, p, i);
    DropPaymentSums(db.links, p, i, p);
    if db.invoices[i].person != db.payments[p].person {
      forall k | 0 <= k < |db.links| ensures !(db.links[k].invoice == i && db.links[k].payment == p) { assert LinkOk(db, db.links[k]); }
      NothingVia(db.links, i, p);
    }
  }

  lemma {:induction false} NothingVia(links: seq<Link>, i: nat, p: nat)
    requires forall k :: 0 <= k < |links| ==> !(links[k].invoice == i && links[k].payment == p)
    ensures LinkedVia(links, i, p) == 0
  {
    if links != [] { NothingVia(links[..|links| - 1], i, p); }
  }

  lemma LinkIsOfItsPayer(db: Db, l: Link)
    requires MoneyOk(db) && l in db.links
    ensures l.invoice < |db.invoices| && l.payment < |db.payments| && db.invoices[l.invoice].person == db.payments[l.payment].person
  {
    var k :| 0 <= k < |db.links| && db.links[k] == l;
    assert LinkOk(db, db.links[k]);
  }

  lemma OthersAreNotUnstamped(db: Db, p: nat, c: ChargeRow)
    requires OwnAllocs(db) && ChargeIdsOk(db) && p < |db.payments| && c.person != db.payments[p].person
    ensures c in db.charges <==> c in Unstamp(db, p, |db.charges|)
  {
    var next := Unstamp(db, p, |db.charges|);
    forall m | 0 <= m < |db.charges| && db.charges[m].person != db.payments[p].person ensures next[m] == db.charges[m] {
      forall k | 0 <= k < |db.allocs| && db.allocs[k].payment == p ensures db.allocs[k].charge != db.charges[m].id {
        assert OwnedBy(db.charges, db.allocs[k].charge, db.payments[p].person);
      }
      NotAllocatedStays(db, p, |db.charges|, m);
    }
    if c in db.charges {
      var m :| 0 <= m < |db.charges| && db.charges[m] == c;
      assert next[m] == c;
    }
    if c in next {
      var m :| 0 <= m < |next| && next[m] == c;
      assert db.charges[m].person == c.person;
    }
  }

  lemma {:induction false} NotAllocatedStays(db: Db, p: nat, n: nat, m: nat)
    requires m < n <= |db.charges| && !AllocatedTo(db.allocs, p, db.charges[m].id)
    ensures Unstamp(db, p, n)[m] == db.charges[m]
  {
    hide AllocatedTo;
    if m < n - 1 { NotAllocatedStays(db, p, n - 1, m); }
  }

  lemma AssigningStaysWithin(db: Db, tx: nat, target: Target, actor: nat)
    ensures StaysWithin(db, Apply(db, AssignBank(db, tx, target, actor)), PersonOfTarget(db, target), {tx})
  {
    hide RecordPayment, LinkedOnly, Unresolved, StaysWithin;
    NothingStaysWithin(db, PersonOfTarget(db, target), {tx});
    var o := AssignBank(db, tx, target, actor);
    if o.Committed? {
      var t := db.bank[tx];
      var person := if target.ToInvoice? then db.invoices[target.invoice].person else target.person;
      var allocations := if target.ToInvoice?
        then [(target.invoice, Min(t.amount, OpenAmount(db, target.invoice)))] else [];
      var req, key := Request(person, t.amount, false, allocations), BankKey(tx, t.payment);
      var r := RecordPayment(db, req, actor, key);
      if r.Paid? {
        RecordingLinksOnly(db, req, actor, key);
        BookingStaysWithin(db, r.db, Payment(person, t.amount, false, None, actor, key, req));
        NamedBankRow(db, r.db, {person}, tx, o.db.bank[tx]);
      } else {
        NothingStaysWithin(db, {person}, {});
        NamedBankRow(db, db, {person}, tx, o.db.bank[tx]);
      }
    }
  }

  lemma NamedBankRow(db: Db, next: Db, ps: set<nat>, tx: nat, row: BankTx)
    requires StaysWithin(db, next, ps, {}) && tx in db.bank
    ensures StaysWithin(db, next.(bank := db.bank[tx := row]), ps, {tx})
  {
    hide DocumentsStay, ReceiptsStay, LinksStay, AllocsStay, LocksStay, ChargesStay, DepositsStay;
    TablesDoNotReadBank(db, next, ps, db.bank[tx := row]);
  }

  lemma TablesDoNotReadBank(db: Db, next: Db, ps: set<nat>, bank: map<nat, BankTx>)
    ensures var other := next.(bank := bank);
      && DocumentsStay(db, other, ps) == DocumentsStay(db, next, ps) && ReceiptsStay(db, other, ps) == ReceiptsStay(db, next, ps)
      && LinksStay(db, other, ps) == LinksStay(db, next, ps) && AllocsStay(db, other, ps) == AllocsStay(db, next, ps)
      && LocksStay(db, other, ps) == LocksStay(db, next, ps) && ChargesStay(db, other, ps) == ChargesStay(db, next, ps)
      && DepositsStay(db, other, ps) == DepositsStay(db, next, ps)
  {
  }

  lemma ChargeEditsStayWithin(db: Db, op: Op)
    requires op.OpCreateCharge? || op.OpUpdateCharge? || op.OpDeleteCharge?
    ensures StaysWithin(db, Step(db, op), PersonsOf(db, op), {})
  {
    ChargeRowsStay(db, op);
    hide FinanciallyLocked, FindCharge, PersonsOf, ChargesStay;
  }

  lemma ChargeRowsStay(db: Db, op: Op)
    requires op.OpCreateCharge? || op.OpUpdateCharge? || op.OpDeleteCharge?
    ensures ChargesStay(db, Step(db, op), PersonsOf(db, op))
  {
    hide FinanciallyLocked, FindCharge;
    var next := Step(db, op);
    forall c: ChargeRow | c.person !in PersonsOf(db, op) ensures c in db.charges <==> c in next.charges {
      if op.OpUpdateCharge? && next != db {
        var k := FindCharge(db.charges, op.charge, |db.charges|).value;
        ReplacedRow(db.charges, k, next.charges[k], c);
      } else if op.OpDeleteCharge? && next != db {
        var k := FindCharge(db.charges, op.charge, |db.charges|).value;
        assert db.charges == db.charges[..k] + [db.charges[k]] + db.charges[k + 1..];
      }
    }
  }

  lemma ReplacedRow(charges: seq<ChargeRow>, k: nat, row: ChargeRow, c: ChargeRow)
    requires k < |charges| && c != charges[k] && c != row
    ensures c in charges <==> c in charges[k := row]
  {
    if c in charges {
      var m :| 0 <= m < |charges| && charges[m] == c;
      assert charges[k := row][m] == c;
    }
    if c in charges[k := row] {
      var m :| 0 <= m < |charges| && charges[k := row][m] == c;
      assert charges[m] == c;
    }
  }

  /** Every transaction stays within the rows its locks cover, however it ends. */
  lemma StepStaysWithin(db: Db, op: Op)
    requires Valid(db) && OwnAllocs(db)
    ensures StaysWithin(db, Step(db, op), PersonsOf(db, op), BankRowsOf(op))
    ensures !LocksSettings(op) ==> NumberingStays(db, Step(db, op))
  {
    if !LocksSettings(op) { NumberingIsLocked(db, op); }
    hide StaysWithin, OwnAllocs, CreateInvoice, CancelInvoice, PayInvoices, ApplyCredit, SettleExtras, CreateDeposit, DeleteDeposit,
      ReversePayment, AssignBank, UpdateCharge, DeleteCharge, CreateCharge, SetIgnored, ImportBank, PersonOfDeposit, PersonOfCharge,
      NumberingStays;
    match op
    case OpCreateInvoice(person, known, acc, rate, parts, asOf) => IssuingStaysWithin(db, person, known, acc, rate, parts, asOf);
    case OpCancelInvoice(id, asOf) => CancellingStaysWithin(db, id, asOf);
    case OpPay(req, actor, key) => PayingStaysWithin(db, req, actor, KeyOf(key));
    case OpApplyCredit(person) => SweepingStaysWithin(db, person);
    case OpSettleExtras(person, agreement, covered, actor) => SettlingStaysWithin(db, person, agreement, covered, actor);
    case OpCreateDeposit(person, known, kind, amount, actor) => DepositingStaysWithin(db, person, known, kind, amount, actor);
    case OpDeleteDeposit(id) => DeletingDepositStaysWithin(db, id);
    case OpReverse(p) => ReverseStaysWithin(db, p);
    case OpAssignBank(tx, target, actor) => AssigningStaysWithin(db, tx, target, actor);
    case OpCreateCharge(_, _, _, _, _) => ChargeEditsStayWithin(db, op);
    case OpUpdateCharge(_, _, _, _, _, _) => ChargeEditsStayWithin(db, op);
    case OpDeleteCharge(_) => ChargeEditsStayWithin(db, op);
    case _ => RestStaysWithin(db, op);
  }

  lemma ReverseStaysWithin(db: Db, p: nat)
    requires Valid(db) && OwnAllocs(db)
    ensures StaysWithin(db, Apply(db, ReversePayment(db, p)), if p < |db.payments| then {db.payments[p].person} else {}, {})
  {
    hide StaysWithin, Valid, OwnAllocs;
    NothingStaysWithin(db, if p < |db.payments| then {db.payments[p].person} else {}, {});
    if ReversePayment(db, p).Committed? { ReversingStaysWithin(db, p); }
  }

  lemma RestStaysWithin(db: Db, op: Op)
    requires op.OpSaveSettings? || op.OpSetIgnored? || op.OpImportBank?
    ensures StaysWithin(db, Step(db, op), {}, BankRowsOf(op))
  {
    hide Unresolved;
  }

  lemma PaymentKeepsNumbering(db: Db, req: Request, actor: nat, key: PaymentKey)
    requires MoneyOk(db)
    ensures var r := RecordPayment(db, req, actor, key); r.Paid? ==> NumberingStays(db, r.db) && r.db.allocs == db.allocs
  {
    RecordPaymentBooks(db, req, actor, key);
    hide RecordPayment, MoneyOk;
  }

  lemma NumberingIsLocked(db: Db, op: Op)
    requires Valid(db) && !LocksSettings(op)
    ensures NumberingStays(db, Step(db, op))
    ensures !op.OpSettleExtras? && !op.OpReverse? ==> Step(db, op).allocs == db.allocs
  {
    hide Valid, RecordPayment, MoneyOk, SumAllocs, ExtraAllocs, MarkExtras, Balance, FindDeposit, DropDeposit, FindCharge,
      FinanciallyLocked, Unresolved, GiveBack, Unstamp, Reopen, DropPayment, DropAllocs, ApplyCredit, AssignBank;
    ValidIds(db);
    match op
    case OpPay(req, actor, key) => PaymentKeepsNumbering(db, req, actor, KeyOf(key));
    case OpApplyCredit(person) => SweepKeepsNumbering(db, person);
    case OpCreateDeposit(person, known, kind, amount, actor) =>
      PaymentKeepsNumbering(db, Request(person, amount, true, []), actor, DepositKey(db.nextDeposit));
    case OpAssignBank(tx, target, actor) => AssignKeepsNumbering(db, tx, target, actor);
    case _ =>
  }

  lemma SweepKeepsNumbering(db: Db, person: nat)
    requires MoneyOk(db)
    ensures NumberingStays(db, ApplyCredit(db, person)) && ApplyCredit(db, person).allocs == db.allocs
  {
    ApplyCreditSweeps(db, person);
    hide ApplyCredit, MoneyOk, SumOpen, SumFree, Used;
  }

  lemma AssignKeepsNumbering(db: Db, tx: nat, target: Target, actor: nat)
    requires MoneyOk(db)
    ensures var next := Apply(db, AssignBank(db, tx, target, actor)); NumberingStays(db, next) && next.allocs == db.allocs
  {
    hide RecordPayment, MoneyOk, Unresolved;
    if AssignBank(db, tx, target, actor).Committed? {
      var t := db.bank[tx];
      var person := if target.ToInvoice? then db.invoices[target.invoice].person else target.person;
      var allocations := if target.ToInvoice?
        then [(target.invoice, Min(t.amount, OpenAmount(db, target.invoice)))] else [];
      PaymentKeepsNumbering(db, Request(person, t.amount, false, allocations), actor, BankKey(tx, t.payment));
    }
  }

  // ---------- over whole runs ----------

  lemma OwnAllocsFrame(db: Db, next: Db)
    requires OwnAllocs(db) && AllocsOk(db) && (forall a :: a in next.allocs ==> a in db.allocs)
    requires forall p :: 0 <= p < |db.payments| ==> p < |next.payments| && next.payments[p].person == db.payments[p].person
    requires forall k, person :: 0 <= k < |db.allocs| && OwnedBy(db.charges, db.allocs[k].charge, person) ==>
      OwnedBy(next.charges, db.allocs[k].charge, person)
    ensures OwnAllocs(next)
  {
    hide OwnedBy;
    forall k | 0 <= k < |next.allocs| && next.allocs[k].payment < |next.payments|
      ensures OwnedBy(next.charges, next.allocs[k].charge, next.payments[next.allocs[k].payment].person)
    {
      assert next.allocs[k] in db.allocs;
      var j :| 0 <= j < |db.allocs| && db.allocs[j] == next.allocs[k];
    }
  }

  lemma SameRowsOwned(a: seq<ChargeRow>, b: seq<ChargeRow>, id: nat, person: nat)
    requires SameRows(a, b) && OwnedBy(a, id, person)
    ensures OwnedBy(b, id, person)
  {
    var m :| 0 <= m < |a| && a[m].id == id && a[m].person == person;
    assert b[m].id == id && b[m].person == person;
  }

  /** A row of a charge that a receipt covers keeps its owner under every edit. */
  lemma EditsKeepOwners(db: Db, op: Op, k: nat, person: nat)
    requires ClaimsOk(db) && (op.OpCreateCharge? || op.OpUpdateCharge? || op.OpDeleteCharge?)
    requires k < |db.allocs| && OwnedBy(db.charges, db.allocs[k].charge, person)
    ensures OwnedBy(Step(db, op).charges, db.allocs[k].charge, person)
  {
    var id, next := db.allocs[k].charge, Step(db, op);
    assert FinanciallyLocked(db, id) by { CoveredIsLocked(db, k); }
    assert ChargeIdsOk(db) by { ClaimedIds(db); }
    hide ClaimsOk, FinanciallyLocked;
    var m :| 0 <= m < |db.charges| && db.charges[m].id == id && db.charges[m].person == person;
    match op
    case OpCreateCharge(_, _, _, _, _) => assert next.charges[m] == db.charges[m];
    case OpUpdateCharge(i, p, v, amount, quantity, on) =>
      UpdateKeepsLocked(db, m, i, p, v, amount, quantity, on);
      assert next.charges[m].id == id && next.charges[m].person == person;
    case OpDeleteCharge(i) =>
      DeleteKeepsLocked(db, m, i);
      var n :| 0 <= n < |next.charges| && next.charges[n] == db.charges[m];
  }

  lemma CoveredIsLocked(db: Db, k: nat)
    requires AllocsOk(db) && k < |db.allocs|
    ensures FinanciallyLocked(db, db.allocs[k].charge)
  {
    hide Backed;
  }

  lemma ClaimedIds(db: Db)
    requires ClaimsOk(db)
    ensures ChargeIdsOk(db) && AllocsOk(db)
  {
    hide AllocsOk, SourcesOk, NumbersOk, StornosOk;
  }

  lemma ExtrasAreOwn(db: Db, person: nat, agreement: nat, covered: set<nat>, actor: nat)
    requires OwnAllocs(db) && ClaimsOk(db)
    ensures OwnAllocs(SettleExtras(db, person, agreement, covered, actor))
  {
    var p, n := |db.payments|, |db.charges|;
    var next := SettleExtras(db, person, agreement, covered, actor);
    ClaimedIds(db);
    hide ClaimsOk, ChargeIdsOk;
    if next != db {
      var extras := ExtraAllocs(db, person, covered, p, n);
      forall k | 0 <= k < |extras| ensures extras[k].payment == p && OwnedBy(next.charges, extras[k].charge, person) {
        ExtraIsOwned(db, person, covered, p, n, extras[k]);
        SameRowsOwned(db.charges, next.charges, extras[k].charge, person);
      }
      hide ExtraAllocs, SumAllocs, MarkExtras, Backed;
      forall k | 0 <= k < |db.allocs|
        ensures OwnedBy(next.charges, db.allocs[k].charge, db.payments[db.allocs[k].payment].person)
      {
        SameRowsOwned(db.charges, next.charges, db.allocs[k].charge, db.payments[db.allocs[k].payment].person);
      }
      hide OwnedBy;
    }
  }

  lemma {:induction false} ExtraIsOwned(db: Db, person: nat, covered: set<nat>, p: nat, n: nat, a: Alloc)
    requires n <= |db.charges| && a in ExtraAllocs(db, person, covered, p, n)
    ensures a.payment == p && OwnedBy(db.charges, a.charge, person)
  {
    hide ChargeTotal, Claimed;
    var c := db.charges[n - 1];
    if IsOpenExtra(db, person, covered, c) && a == Alloc(c.id, p, ChargeTotal(c.amount, c.quantity)) {
      assert db.charges[n - 1].id == a.charge && db.charges[n - 1].person == person;
    } else {
      ExtraIsOwned(db, person, covered, p, n - 1, a);
    }
  }

  lemma StepKeepsOwnAllocs(db: Db, op: Op)
    requires Valid(db) && OwnAllocs(db)
    ensures OwnAllocs(Step(db, op))
  {
    assert ReceiptsStay(db, Step(db, op), PersonsOf(db, op)) by { StepStaysWithin(db, op); hide Step, PersonsOf; }
    assert ClaimsOk(db);
    ClaimedIds(db);
    if op.OpSettleExtras? {
      ExtrasAreOwn(db, op.person, op.agreement, op.covered, op.actor);
    } else {
      OnlyExtrasAddAllocs(db, op);
      OwnersStay(db, op);
      hide Step, Valid, ClaimsOk, ChargeIdsOk, AllocsOk, OwnAllocs, OwnedBy, PersonsOf;
      OwnAllocsFrame(db, Step(db, op));
    }
  }

  lemma DocumentsAddNoAllocs(db: Db, op: Op)
    requires LocksSettings(op)
    ensures Step(db, op).allocs == db.allocs
  {
    hide OpenLines, Compliant, Gross, NumberIsTaken, LockAll, DropInvoice, Negated, Unresolved;
  }

  lemma ReversalAddsNoAllocs(db: Db, p: nat)
    ensures forall a :: a in Step(db, OpReverse(p)).allocs ==> a in db.allocs
  {
    hide GiveBack, Unstamp, Reopen, DropPayment, DropAllocs;
    DropAllocsSum(db.allocs, p, p);
  }

  lemma OnlyExtrasAddAllocs(db: Db, op: Op)
    requires Valid(db) && !op.OpSettleExtras?
    ensures forall a :: a in Step(db, op).allocs ==> a in db.allocs
  {
    hide Step, Valid;
    if op.OpReverse? {
      ReversalAddsNoAllocs(db, op.payment);
    } else if LocksSettings(op) {
      DocumentsAddNoAllocs(db, op);
    } else {
      NumberingIsLocked(db, op);
    }
  }

  lemma OwnersStay(db: Db, op: Op)
    requires Valid(db) && !op.OpSettleExtras?
    ensures forall k, person :: 0 <= k < |db.allocs| && OwnedBy(db.charges, db.allocs[k].charge, person) ==>
      OwnedBy(Step(db, op).charges, db.allocs[k].charge, person)
  {
    hide OwnedBy, Step;
    forall k, person | 0 <= k < |db.allocs| && OwnedBy(db.charges, db.allocs[k].charge, person)
      ensures OwnedBy(Step(db, op).charges, db.allocs[k].charge, person)
    {
      if op.OpCreateCharge? || op.OpUpdateCharge? || op.OpDeleteCharge? {
        EditsKeepOwners(db, op, k, person);
      } else if op.OpReverse? {
        OtherStepsKeepRows(db, op);
        SameRowsOwned(db.charges, Step(db, op).charges, db.allocs[k].charge, person);
      } else {
        OtherStepsKeepCharges(db, op) by { ValidIds(db); }
      }
    }
  }

  /** A person's documents, receipts, charges and deposits are the same. */
  ghost predicate RowsKept(db: Db, next: Db, q: nat) {
    && |db.invoices| <= |next.invoices| && |db.payments| <= |next.payments|
    && (forall i :: 0 <= i < |db.invoices| ==>
          next.invoices[i].person == db.invoices[i].person && (db.invoices[i].person == q ==> next.invoices[i] == db.invoices[i]))
    && (forall i :: |db.invoices| <= i < |next.invoices| ==> next.invoices[i].person != q)
    && (forall p :: 0 <= p < |db.payments| ==>
          next.payments[p].person == db.payments[p].person && (db.payments[p].person == q ==> next.payments[p] == db.payments[p]))
    && (forall p :: |db.payments| <= p < |next.payments| ==> next.payments[p].person != q)
    && (forall c: ChargeRow :: c.person == q ==> (c in db.charges <==> c in next.charges))
    && (forall d: Deposit :: d.person == q ==> (d in db.deposits <==> d in next.deposits))
  }

  predicate DocumentOf(db: Db, i: nat, q: nat) {
    i < |db.invoices| && db.invoices[i].person == q
  }

  predicate ReceiptOf(db: Db, p: nat, q: nat) {
    p < |db.payments| && db.payments[p].person == q
  }

  /** So are the links and lock rows of the documents and the allocations of the receipts. */
  ghost predicate TiesKept(db: Db, next: Db, q: nat) {
    && (forall l: Link :: DocumentOf(db, l.invoice, q) ==> (l in db.links <==> l in next.links))
    && (forall a: Alloc :: ReceiptOf(db, a.payment, q) ==> (a in db.allocs <==> a in next.allocs))
    && (forall p :: p in db.sources && DocumentOf(db, db.sources[p], q) ==> p in next.sources && next.sources[p] == db.sources[p])
    && (forall p :: p in next.sources && DocumentOf(db, next.sources[p], q) ==> p in db.sources && next.sources[p] == db.sources[p])
  }

  lemma WithinKeepsRows(db: Db, next: Db, ps: set<nat>, txs: set<nat>, q: nat)
    requires StaysWithin(db, next, ps, txs) && q !in ps
    ensures RowsKept(db, next, q) && TiesKept(db, next, q)
  {
    hide BankStays;
    assert TiesKept(db, next, q) by {
      hide DocumentsStay, ReceiptsStay, ChargesStay, DepositsStay;
      assert forall l: Link :: DocumentOf(db, l.invoice, q) ==> OthersLink(db, ps, l);
      assert forall a: Alloc :: ReceiptOf(db, a.payment, q) ==> OthersAlloc(db, ps, a);
    }
  }

  lemma RowsKeptTwice(db: Db, mid: Db, next: Db, q: nat)
    requires RowsKept(db, mid, q) && RowsKept(mid, next, q)
    ensures RowsKept(db, next, q)
  {
  }

  lemma TiesKeptTwice(db: Db, mid: Db, next: Db, q: nat)
    requires RowsKept(db, mid, q) && TiesKept(db, mid, q) && TiesKept(mid, next, q)
    ensures TiesKept(db, next, q)
  {
    forall i: nat | DocumentOf(db, i, q) ensures DocumentOf(mid, i, q) { }
    forall p: nat | ReceiptOf(db, p, q) ensures ReceiptOf(mid, p, q) { }
    hide RowsKept, DocumentOf, ReceiptOf;
  }

  lemma EmptyOwnsAll()
    ensures Valid(Empty()) && OwnAllocs(Empty())
  {
    EmptyIsValid();
    hide Valid;
  }

  /** No run of transactions that never take a person's lock changes any row of that person. */
  lemma {:induction false} RunsLeaveOthersRows(db: Db, ops: seq<Op>, q: nat)
    requires Valid(db) && OwnAllocs(db)
    requires forall k :: 0 <= k < |ops| ==> q !in PersonsOf(Run(db, ops[..k]), ops[k])
    ensures Valid(Run(db, ops)) && OwnAllocs(Run(db, ops))
    ensures RowsKept(db, Run(db, ops), q) && TiesKept(db, Run(db, ops), q)
  {
    hide Valid, OwnAllocs, Step, PersonsOf, RowsKept, TiesKept, StaysWithin;
    if ops == [] {
      KeptAsIs(db, q);
    } else {
      var n := |ops| - 1;
      forall k | 0 <= k < n ensures q !in PersonsOf(Run(db, ops[..n][..k]), ops[..n][k]) { assert ops[..n][..k] == ops[..k]; }
      RunsLeaveOthersRows(db, ops[..n], q);
      var mid := Run(db, ops[..n]);
      assert q !in PersonsOf(mid, ops[n]);
      StepStaysWithin(mid, ops[n]);
      StepKeepsOwnAllocs(mid, ops[n]);
      StepKeepsValid(mid, ops[n]);
      WithinKeepsRows(mid, Step(mid, ops[n]), PersonsOf(mid, ops[n]), BankRowsOf(ops[n]), q);
      RowsKeptTwice(db, mid, Run(db, ops), q);
      TiesKeptTwice(db, mid, Run(db, ops), q);
    }
  }

  lemma KeptAsIs(db: Db, q: nat)
    ensures RowsKept(db, db, q) && TiesKept(db, db, q)
  {
  }

  // ---------- what payments and the credit sweep read ----------

  /** The two states have the same documents of `q`, under the same ids. */
  predicate SameDocuments(db: Db, other: Db, q: nat) {
    && |db.invoices| == |other.invoices|
    && forall i :: 0 <= i < |db.invoices| && (db.invoices[i].person == q || other.invoices[i].person == q) ==>
         db.invoices[i] == other.invoices[i]
  }

  /** And the same receipts of `q`, spent alike. */
  predicate SameReceipts(db: Db, other: Db, q: nat) {
    && |db.payments| == |other.payments|
    && forall p :: 0 <= p < |db.payments| && (db.payments[p].person == q || other.payments[p].person == q) ==>
         db.payments[p] == other.payments[p] && Used(db, p) == Used(other, p)
  }

  predicate OfPerson(db: Db, q: nat, ids: seq<nat>) {
    forall k :: 0 <= k < |ids| ==> ids[k] < |db.invoices| && db.invoices[ids[k]].person == q
  }

  lemma {:induction false} OpenReads(db: Db, other: Db, q: nat, n: nat)
    requires SameDocuments(db, other, q) && n <= |db.invoices|
    ensures OpenById(db, q, n) == OpenById(other, q, n) && OfPerson(db, q, OpenById(db, q, n))
  {
    if n > 0 { OpenReads(db, other, q, n - 1); }
  }

  lemma {:induction false} InsertReads(db: Db, other: Db, q: nat, ids: seq<nat>, i: nat)
    requires SameDocuments(db, other, q) && OfPerson(db, q, ids) && i < |db.invoices| && db.invoices[i].person == q
    ensures InsertByIssue(db, ids, i) == InsertByIssue(other, ids, i) && OfPerson(db, q, InsertByIssue(db, ids, i))
  {
    if ids != [] { InsertReads(db, other, q, ids[..|ids| - 1], i); }
  }

  lemma {:induction false} SortReads(db: Db, other: Db, q: nat, ids: seq<nat>)
    requires SameDocuments(db, other, q) && OfPerson(db, q, ids)
    ensures SortByIssue(db, ids) == SortByIssue(other, ids) && OfPerson(db, q, SortByIssue(db, ids))
  {
    if ids != [] {
      SortReads(db, other, q, ids[..|ids| - 1]);
      InsertReads(db, other, q, SortByIssue(db, ids[..|ids| - 1]), ids[|ids| - 1]);
    }
  }

  lemma LinkKeepsAlike(db: Db, other: Db, q: nat, i: nat, p: nat, amount: int)
    requires SameDocuments(db, other, q) && i < |db.invoices| && db.invoices[i].person == q
    ensures SameDocuments(AddLink(db, i, p, amount), AddLink(other, i, p, amount), q)
  {
  }

  lemma {:induction false} LoopReads(
    db: Db, other: Db, q: nat, ids: seq<nat>, p: nat, remaining: int, explicit: map<nat, int>, auto: bool)
    requires SameDocuments(db, other, q) && OfPerson(db, q, ids)
    ensures var x, y := BookLoop(db, ids, p, remaining, explicit, auto), BookLoop(other, ids, p, remaining, explicit, auto);
      x.remaining == y.remaining && SameDocuments(x.db, y.db, q)
    decreases |ids|
  {
    hide ShareOf;
    if ids == [] || remaining <= 0 || (explicit == map[] && !auto) {
    } else {
      var share := ShareOf(OpenAmount(db, ids[0]), remaining, explicit, ids[0]);
      if share <= 0 {
        LoopReads(db, other, q, ids[1..], p, remaining, explicit, auto);
      } else {
        LinkKeepsAlike(db, other, q, ids[0], p, share);
        LoopReads(AddLink(db, ids[0], p, share), AddLink(other, ids[0], p, share), q, ids[1..], p, remaining - share, explicit, auto);
      }
    }
  }

  /**
   What a payment does to its person's documents depends on them alone, once its key decides alike
   whether it is a replay: other persons' rows have no influence.
   */
  lemma PaymentReadsItsPerson(db: Db, other: Db, req: Request, actor: nat, key: PaymentKey)
    requires SameDocuments(db, other, req.person) && |db.payments| == |other.payments|
    requires FindKey(db, actor, key, |db.payments|).None? && FindKey(other, actor, key, |other.payments|).None?
    ensures var x, y := RecordPayment(db, req, actor, key), RecordPayment(other, req, actor, key);
      && (x.Paid? <==> y.Paid?) && (x.Refused? ==> x == y)
      && (x.Paid? ==> x.unallocated == y.unallocated && x.payment == y.payment && SameDocuments(x.db, y.db, req.person))
  {
    hide FindKey, BookLoop, OpenById, SortByIssue, Explicit;
    OpenReads(db, other, req.person, |db.invoices|);
    SortReads(db, other, req.person, OpenById(db, req.person, |db.invoices|));
    var pay := Payment(req.person, req.amount, false, None, actor, key, req);
    LoopReads(AddPayment(db, pay), AddPayment(other, pay), req.person, OpenOldestFirst(db, req.person), |db.payments|,
              req.amount, Explicit(req.allocations), req.auto);
  }

  lemma {:induction false} CreditReads(db: Db, other: Db, q: nat, n: nat)
    requires SameReceipts(db, other, q) && n <= |db.payments|
    ensures CreditPayments(db, q, n) == CreditPayments(other, q, n)
    ensures forall k :: 0 <= k < |CreditPayments(db, q, n)| ==> db.payments[CreditPayments(db, q, n)[k]].person == q
  {
    hide Used;
    if n > 0 { CreditReads(db, other, q, n - 1); }
  }

  lemma LinkReads(db: Db, other: Db, q: nat, i: nat, p: nat, amount: int)
    requires SameDocuments(db, other, q) && SameReceipts(db, other, q) && i < |db.invoices| && db.invoices[i].person == q
    ensures SameDocuments(AddLink(db, i, p, amount), AddLink(other, i, p, amount), q)
    ensures SameReceipts(AddLink(db, i, p, amount), AddLink(other, i, p, amount), q)
  {
    forall r | 0 <= r < |db.payments|
      ensures Used(AddLink(db, i, p, amount), r) == Used(db, r) + (if r == p then amount else 0)
      ensures Used(AddLink(other, i, p, amount), r) == Used(other, r) + (if r == p then amount else 0)
    {
      AddLinkSums(db, i, p, amount, r);
      AddLinkSums(other, i, p, amount, r);
    }
    hide Used;
  }

  lemma {:induction false} DrawReads(db: Db, other: Db, q: nat, i: nat, open: int, ids: seq<nat>)
    requires SameDocuments(db, other, q) && SameReceipts(db, other, q) && i < |db.invoices| && db.invoices[i].person == q
    requires forall k :: 0 <= k < |ids| ==> ids[k] < |db.payments| && db.payments[ids[k]].person == q
    ensures SameDocuments(DrawFor(db, i, open, ids), DrawFor(other, i, open, ids), q)
    ensures SameReceipts(DrawFor(db, i, open, ids), DrawFor(other, i, open, ids), q)
    decreases |ids|
  {
    hide Used;
    if ids == [] || open <= 0 {
    } else {
      var amount := Min(Free(db, ids[0]), open);
      if amount <= 0 {
        DrawReads(db, other, q, i, open, ids[1..]);
      } else {
        LinkReads(db, other, q, i, ids[0], amount);
        DrawReads(AddLink(db, i, ids[0], amount), AddLink(other, i, ids[0], amount), q, i, open - amount, ids[1..]);
      }
    }
  }

  lemma {:induction false} SweepReads(db: Db, other: Db, q: nat, open: seq<nat>, ids: seq<nat>)
    requires SameDocuments(db, other, q) && SameReceipts(db, other, q) && OfPerson(db, q, open)
    requires forall k :: 0 <= k < |ids| ==> ids[k] < |db.payments| && db.payments[ids[k]].person == q
    ensures SameDocuments(DrawLoop(db, open, ids), DrawLoop(other, open, ids), q)
    ensures SameReceipts(DrawLoop(db, open, ids), DrawLoop(other, open, ids), q)
    decreases |open|
  {
    hide DrawFor, Used;
    if open != [] {
      var x, y := DrawFor(db, open[0], OpenAmount(db, open[0]), ids), DrawFor(other, open[0], OpenAmount(db, open[0]), ids);
      DrawReads(db, other, q, open[0], OpenAmount(db, open[0]), ids);
      DrawForShape(db, open[0], OpenAmount(db, open[0]), ids);
      DrawForShape(other, open[0], OpenAmount(db, open[0]), ids);
      DrawLinksOnly(db, open[0], OpenAmount(db, open[0]), ids);
      SweepReads(x, y, q, open[1..], ids);
    }
  }

  /** The credit sweep depends on the documents and receipts of its person alone. */
  lemma CreditReadsItsPerson(db: Db, other: Db, q: nat)
    requires SameDocuments(db, other, q) && SameReceipts(db, other, q)
    ensures SameDocuments(ApplyCredit(db, q), ApplyCredit(other, q), q)
    ensures SameReceipts(ApplyCredit(db, q), ApplyCredit(other, q), q)
  {
    hide Used, DrawLoop;
    OpenReads(db, other, q, |db.invoices|);
    CreditReads(db, other, q, |db.payments|);
    SweepReads(db, other, q, OpenById(db, q, |db.invoices|), CreditPayments(db, q, |db.payments|));
  }
}
