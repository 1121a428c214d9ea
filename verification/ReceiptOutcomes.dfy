/**
 When a receipt is booked and what it then changes, said on the request and on the tables before
 and after: which parts of which documents a payment covers, what an assigned bank transaction and
 a withheld deposit pay, and when each of them is refused.
 */
module ReceiptOutcomes {
  import opened PeriodKeys
  import opened Accrual
  import opened OwedLines
  import opened InvoiceLines
  import opened LedgerState
  import opened LedgerMoney
  import opened LedgerBooks
  import opened LedgerCredit
  import opened LedgerClaims
  import opened LedgerReceipts
  import opened LedgerRuns
  import opened LedgerUndo

  // ---------- what a request asks for ----------

  predicate Names(allocations: seq<(nat, int)>, i: nat) {
    exists k :: 0 <= k < |allocations| && allocations[k].0 == i
  }

  /** The amount of the last entry that names the document; 0 if none does. */
  function PartFor(allocations: seq<(nat, int)>, i: nat): int {
    if allocations == [] then 0
    else if allocations[|allocations| - 1].0 == i then allocations[|allocations| - 1].1
    else PartFor(allocations[..|allocations| - 1], i)
  }

  /** The `k`-th entry decides if no later one names the same document. */
  lemma {:induction false} LastEntryDecides(allocations: seq<(nat, int)>, k: nat)
    requires k < |allocations| && forall m :: k < m < |allocations| ==> allocations[m].0 != allocations[k].0
    ensures PartFor(allocations, allocations[k].0) == allocations[k].1
  {
    var n := |allocations| - 1;
    if k < n { LastEntryDecides(allocations[..n], k); }
  }

  lemma {:induction false} ExplicitIsPart(allocations: seq<(nat, int)>, i: nat)
    ensures i in Explicit(allocations) <==> Names(allocations, i)
    ensures Names(allocations, i) ==> Explicit(allocations)[i] == PartFor(allocations, i)
    ensures !Names(allocations, i) ==> PartFor(allocations, i) == 0
  {
    if allocations != [] {
      var n := |allocations| - 1;
      ExplicitIsPart(allocations[..n], i);
      assert allocations == allocations[..n] + [allocations[n]];
      if Names(allocations[..n], i) {
        var k :| 0 <= k < n && allocations[..n][k].0 == i;
        assert allocations[k].0 == i;
      }
    }
  }

  /** What the request wants on an open document: everything, or the chosen part of it. */
  function WantedOn(db: Db, allocations: seq<(nat, int)>, i: nat): int
    requires i < |db.invoices|
  {
    var open := db.invoices[i].total - db.invoices[i].paid;
    if allocations == [] then open
    else if PartFor(allocations, i) <= 0 then 0
    else if PartFor(allocations, i) < open then PartFor(allocations, i)
    else open
  }

  function SumWanted(db: Db, allocations: seq<(nat, int)>, ids: seq<nat>): int
    requires forall k :: 0 <= k < |ids| ==> ids[k] < |db.invoices|
  {
    if ids == [] then 0 else WantedOn(db, allocations, ids[0]) + SumWanted(db, allocations, ids[1..])
  }

  predicate IsOpen(inv: Invoice, person: nat) {
    inv.person == person && !inv.canceled && inv.cancels.None? && inv.paid < inv.total
  }

  /** `ids` are exactly the person's open documents, by issue day and then by id. */
  ghost predicate ListsOpen(db: Db, person: nat, ids: seq<nat>) {
    && (forall k :: 0 <= k < |ids| ==> ids[k] < |db.invoices| && IsOpen(db.invoices[ids[k]], person))
    && (forall i :: 0 <= i < |db.invoices| && IsOpen(db.invoices[i], person) ==> i in ids)
    && (forall j, k :: 0 <= j < k < |ids| ==>
          || db.invoices[ids[j]].issued < db.invoices[ids[k]].issued
          || (db.invoices[ids[j]].issued == db.invoices[ids[k]].issued && ids[j] < ids[k]))
  }

  lemma OpenAreListed(db: Db, person: nat)
    ensures ListsOpen(db, person, OpenOldestFirst(db, person))
  {
    OpenOldestFirstIsComplete(db, person);
    hide OpenOldestFirst;
    var ids := OpenOldestFirst(db, person);
    assert forall i :: 0 <= i < |db.invoices| ==> (IsOpenItem(db, person, i) <==> IsOpen(db.invoices[i], person));
  }

  /** Item by item, each open document gets what the older ones left of `amount`, up to what is wanted on it. */
  predicate Pays(db: Db, after: seq<Invoice>, allocations: seq<(nat, int)>, ids: seq<nat>, amount: int)
    requires forall k :: 0 <= k < |ids| ==> ids[k] < |db.invoices|
  {
    && |after| == |db.invoices|
    && (forall k :: 0 <= k < |ids| ==>
          var left, wanted := amount - SumWanted(db, allocations, ids[..k]), WantedOn(db, allocations, ids[k]);
          after[ids[k]] == db.invoices[ids[k]].(paid := db.invoices[ids[k]].paid +
            if left <= 0 then 0 else if left < wanted then left else wanted))
    && (forall i :: 0 <= i < |db.invoices| && i !in ids ==> after[i] == db.invoices[i])
  }

  lemma WantIsWanted(db: Db, allocations: seq<(nat, int)>, i: nat)
    requires i < |db.invoices|
    ensures Want(db, Explicit(allocations), i) == WantedOn(db, allocations, i)
  {
    ExplicitIsPart(allocations, i);
    ExplicitIsEmpty(allocations);
    hide Explicit, Names;
  }

  lemma {:induction false} SumsAgree(db: Db, allocations: seq<(nat, int)>, ids: seq<nat>)
    requires forall k :: 0 <= k < |ids| ==> ids[k] < |db.invoices|
    ensures SumWant(db, Explicit(allocations), ids) == SumWanted(db, allocations, ids)
  {
    hide Explicit, Want, WantedOn;
    if ids != [] {
      WantIsWanted(db, allocations, ids[0]);
      SumsAgree(db, allocations, ids[1..]);
    }
  }

  /** A payment covers the open documents oldest first: all of each, or of the chosen ones the chosen part. */
  lemma PaymentPaysTheChosenParts(db: Db, req: Request, actor: nat, key: PaymentKey) returns (ids: seq<nat>)
    requires MoneyOk(db) && RecordPayment(db, req, actor, key).Paid?
    ensures ListsOpen(db, req.person, ids)
    ensures forall k :: 0 <= k < |req.allocations| ==> req.allocations[k].0 in ids
    ensures var r := RecordPayment(db, req, actor, key);
      if req.allocations == [] && !req.auto then r.db.invoices == db.invoices && r.unallocated == req.amount
      else
        && Pays(db, r.db.invoices, req.allocations, ids, req.amount)
        && r.unallocated == req.amount - Min(req.amount, SumWanted(db, req.allocations, ids))
  {
    hide MoneyOk, RecordPayment, OpenOldestFirst, Explicit, ListsOpen, Pays, OpenItems, OldestFirst, Flows, SumWant, SumWanted;
    ids := OpenOldestFirst(db, req.person);
    OpenAreListed(db, req.person);
    PaymentBooksWhatWasAsked(db, req, actor, key);
    forall k | 0 <= k < |req.allocations| ensures req.allocations[k].0 in ids {
      NamedIsExplicit(req.allocations, k);
    }
    ExplicitIsEmpty(req.allocations);
    if req.allocations != [] || req.auto {
      PaysFromFlows(db, RecordPayment(db, req, actor, key).db, req.person, req.allocations, ids, req.amount) by {
        RecordedFrame(db, req, actor, key);
      }
      SumsAgree(db, req.allocations, ids);
    }
  }

  lemma NamedIsExplicit(allocations: seq<(nat, int)>, k: nat)
    requires k < |allocations|
    ensures allocations[k].0 in Explicit(allocations)
  {
    ExplicitIsPart(allocations, allocations[k].0);
  }

  lemma ExplicitIsEmpty(allocations: seq<(nat, int)>)
    ensures Explicit(allocations) == map[] <==> allocations == []
  {
    if allocations != [] { NamedIsExplicit(allocations, 0); }
  }

  lemma RecordedFrame(db: Db, req: Request, actor: nat, key: PaymentKey)
    requires MoneyOk(db) && RecordPayment(db, req, actor, key).Paid?
    ensures var after := RecordPayment(db, req, actor, key).db.invoices;
      |after| == |db.invoices| && forall i :: 0 <= i < |db.invoices| ==> after[i] == db.invoices[i].(paid := after[i].paid)
  {
    hide MoneyOk, RecordPayment;
    RecordPaymentBooks(db, req, actor, key);
  }

  lemma PaysFromFlows(db: Db, after: Db, person: nat, allocations: seq<(nat, int)>, ids: seq<nat>, amount: int)
    requires ListsOpen(db, person, ids) && |after.invoices| == |db.invoices|
    requires forall i :: 0 <= i < |db.invoices| ==> after.invoices[i] == db.invoices[i].(paid := after.invoices[i].paid)
    requires Flows(db, after, Explicit(allocations), ids, amount)
    requires forall i :: 0 <= i < |db.invoices| && i !in ids ==> after.invoices[i] == db.invoices[i]
    ensures Pays(db, after.invoices, allocations, ids, amount)
  {
    hide Explicit, Want, SumWant, SumWanted;
    forall k | 0 <= k < |ids|
      ensures SumWant(db, Explicit(allocations), ids[..k]) == SumWanted(db, allocations, ids[..k])
      ensures Want(db, Explicit(allocations), ids[k]) == WantedOn(db, allocations, ids[k]) >= 0
    {
      SumsAgree(db, allocations, ids[..k]);
      WantIsWanted(db, allocations, ids[k]);
    }
    hide ListsOpen, WantedOn;
  }

  // ---------- when a receipt is booked ----------

  /** The actor has booked a receipt under the key before. */
  predicate BookedUnder(db: Db, actor: nat, key: PaymentKey, k: nat) {
    k < |db.payments| && key != NoKey && db.payments[k].actor == actor && db.payments[k].key == key
  }

  ghost predicate KeyIsNew(db: Db, actor: nat, key: PaymentKey) {
    forall k: nat :: k < |db.payments| ==> !BookedUnder(db, actor, key, k)
  }

  /** Every document the request names is an open one of its person. */
  predicate NamesOpen(db: Db, req: Request) {
    forall k :: 0 <= k < |req.allocations| ==>
      req.allocations[k].0 < |db.invoices| && IsOpen(db.invoices[req.allocations[k].0], req.person)
  }

  lemma ExplicitNamesOpen(db: Db, req: Request)
    ensures (exists i :: i in Explicit(req.allocations) && i !in OpenOldestFirst(db, req.person)) <==> !NamesOpen(db, req)
  {
    OpenAreListed(db, req.person);
    hide OpenOldestFirst, Explicit, IsOpen;
    var open := OpenOldestFirst(db, req.person);
    forall k | 0 <= k < |req.allocations| ensures req.allocations[k].0 in Explicit(req.allocations) {
      NamedIsExplicit(req.allocations, k);
    }
    forall i | i in Explicit(req.allocations) ensures Names(req.allocations, i) { ExplicitIsPart(req.allocations, i); }
    forall i | i in open ensures i < |db.invoices| && IsOpen(db.invoices[i], req.person) {
      var k :| 0 <= k < |open| && open[k] == i;
    }
  }

  /**
   A request is booked if and only if its amount is positive, its key is new and it names open
   documents only; under a known key it is replayed if it is the same request, and refused otherwise.
   */
  lemma ReceiptIsBookedIff(db: Db, req: Request, actor: nat, key: PaymentKey)
    requires KeysOk(db)
    ensures var r := RecordPayment(db, req, actor, key);
      && (r.Paid? <==> req.amount > 0 && KeyIsNew(db, actor, key) && NamesOpen(db, req))
      && (forall k: nat :: req.amount > 0 && BookedUnder(db, actor, key, k) ==>
            r == if db.payments[k].request == req then Replayed(k) else Refused(KeyReused))
      && (req.amount <= 0 ==> r == Refused(AmountInvalid))
      && (req.amount > 0 && KeyIsNew(db, actor, key) && !NamesOpen(db, req) ==> r == Refused(InvoiceNotOpen))
  {
    ExplicitNamesOpen(db, req);
    KeyFound(db, actor, key);
    hide OpenOldestFirst, Explicit, FindKey, NamesOpen, BookLoop, IsOpen;
  }

  lemma KeyFound(db: Db, actor: nat, key: PaymentKey)
    requires KeysOk(db)
    ensures FindKey(db, actor, key, |db.payments|).None? <==> KeyIsNew(db, actor, key)
    ensures forall k: nat :: BookedUnder(db, actor, key, k) ==> FindKey(db, actor, key, |db.payments|) == Some(k)
  {
    hide FindKey;
    var found := FindKey(db, actor, key, |db.payments|);
    if found.Some? { assert BookedUnder(db, actor, key, found.value); }
  }

  /** The receipt's row, and where the money is that no document got. */
  lemma ReceiptIsAdded(db: Db, req: Request, actor: nat, key: PaymentKey)
    requires MoneyOk(db) && RecordPayment(db, req, actor, key).Paid?
    ensures var r := RecordPayment(db, req, actor, key);
      && r.payment == |db.payments|
      && r.db.payments == db.payments + [Payment(req.person, req.amount, false, None, actor, key, req)]
      && Free(r.db, r.payment) == r.unallocated
      && r.db == db.(payments := r.db.payments, invoices := r.db.invoices, links := r.db.links)
  {
    hide MoneyOk, RecordPayment;
    RecordPaymentBooks(db, req, actor, key);
  }

  // ---------- assigning a bank transaction ----------

  /** Nobody uses the transaction's money: it is open, or its receipt was reversed. */
  predicate Assignable(db: Db, t: BankTx) {
    var reversed := t.payment.Some? && t.payment.value < |db.payments| && db.payments[t.payment.value].reversed;
    (t.status.Open? || (t.status.Assigned? && reversed)) && (t.payment.None? || reversed)
  }

  predicate TargetOk(db: Db, target: Target) {
    match target
    case ToInvoice(i) =>
      i < |db.invoices| && !db.invoices[i].canceled && db.invoices[i].cancels.None? && db.invoices[i].paid < db.invoices[i].total
    case ToPerson(_, known) => known
  }

  function PayerOf(db: Db, target: Target): nat
    requires TargetOk(db, target)
  {
    match target
    case ToInvoice(i) => db.invoices[i].person
    case ToPerson(q, _) => q
  }

  /** What the target document gets. */
  function AssignedPart(db: Db, t: BankTx, target: Target): int
    requires TargetOk(db, target)
  {
    match target
    case ToInvoice(i) =>
      if t.amount < db.invoices[i].total - db.invoices[i].paid then t.amount else db.invoices[i].total - db.invoices[i].paid
    case ToPerson(_, _) => 0
  }

  function AssignedAllocations(db: Db, t: BankTx, target: Target): seq<(nat, int)>
    requires TargetOk(db, target)
  {
    match target
    case ToInvoice(i) => [(i, AssignedPart(db, t, target))]
    case ToPerson(_, _) => []
  }

  function AssignRequest(db: Db, t: BankTx, target: Target): Request
    requires TargetOk(db, target)
  {
    Request(PayerOf(db, target), t.amount, false, AssignedAllocations(db, t, target))
  }

  lemma AssignBooks(db: Db, tx: nat, target: Target, actor: nat)
    requires Valid(db) && tx in db.bank && Assignable(db, db.bank[tx]) && db.bank[tx].euro && TargetOk(db, target)
    ensures var t := db.bank[tx];
      var r := RecordPayment(db, AssignRequest(db, t, target), actor, BankKey(tx, t.payment));
      && (AssignBank(db, tx, target, actor).Committed? <==> r.Paid?)
      && (r.Paid? ==>
            AssignBank(db, tx, target, actor) == Committed(r.db.(
              bank := db.bank[tx := t.(status := Assigned, payment := Some(r.payment), person := Some(PayerOf(db, target)))])))
  {
    hide MoneyOk, ClaimsOk, KeysOk, DepositsOk, RecordPayment;
    var t := db.bank[tx];
    var r := RecordPayment(db, AssignRequest(db, t, target), actor, BankKey(tx, t.payment));
    if r.Replayed? {
      ReplayHasKey(db, AssignRequest(db, t, target), actor, BankKey(tx, t.payment));
      ReplayIsRefused(db, tx, r.payment);
    }
  }

  /** A bank transaction is assigned if and only if it is free, in euros, positive, not used under this key, and its target is open. */
  lemma AssignsIff(db: Db, tx: nat, target: Target, actor: nat)
    requires Valid(db)
    ensures AssignBank(db, tx, target, actor).Committed? <==>
      && tx in db.bank && Assignable(db, db.bank[tx]) && db.bank[tx].euro && db.bank[tx].amount > 0
      && TargetOk(db, target) && KeyIsNew(db, actor, BankKey(tx, db.bank[tx].payment))
  {
    hide MoneyOk, ClaimsOk, BankOk, DepositsOk, RecordPayment, KeyIsNew, KeysOk;
    if tx in db.bank && Assignable(db, db.bank[tx]) && db.bank[tx].euro && TargetOk(db, target) {
      AssignBooks(db, tx, target, actor);
      ReceiptIsBookedIff(db, AssignRequest(db, db.bank[tx], target), actor, BankKey(tx, db.bank[tx].payment));
    }
  }

  /** A chosen part that fits is booked on its document, and nothing else is. */
  lemma {:induction false} OneChosen(db: Db, ids: seq<nat>, p: nat, amount: int, i: nat, part: int, auto: bool)
    requires forall k :: 0 <= k < |ids| ==> ids[k] < |db.invoices|
    requires i in ids && Distinct(ids) && 0 < part <= amount && part <= OpenAmount(db, i)
    ensures BookLoop(db, ids, p, amount, map[i := part], auto).db == AddLink(db, i, p, part)
    decreases |ids|
  {
    if ids[0] == i {
      assert i !in ids[1..];
      NothingChosen(AddLink(db, i, p, part), ids[1..], p, amount - part, i, part, auto);
    } else {
      OneChosen(db, ids[1..], p, amount, i, part, auto);
    }
  }

  lemma {:induction false} NothingChosen(db: Db, ids: seq<nat>, p: nat, amount: int, i: nat, part: int, auto: bool)
    requires forall k :: 0 <= k < |ids| ==> ids[k] < |db.invoices| && ids[k] != i
    ensures BookLoop(db, ids, p, amount, map[i := part], auto).db == db
    decreases |ids|
  {
    assert i in map[i := part];
    if ids != [] { NothingChosen(db, ids[1..], p, amount, i, part, auto); }
  }

  /** What is booked on documents: the part of the chosen one, or nothing. */
  predicate PaysPart(db: Db, next: Db, t: BankTx, target: Target)
    requires TargetOk(db, target)
  {
    var part := AssignedPart(db, t, target);
    match target
    case ToInvoice(i) =>
      && next.invoices == db.invoices[i := db.invoices[i].(paid := db.invoices[i].paid + part)]
      && next.links == db.links + [Link(i, |db.payments|, part)]
    case ToPerson(_, _) => next.invoices == db.invoices && next.links == db.links
  }

  /**
   An assigned transaction becomes one receipt of its amount for the document's person or the chosen
   one. A chosen document gets as much of it as it is open for, no other document changes, and the
   rest is free credit.
   */
  lemma AssignmentPays(db: Db, tx: nat, target: Target, actor: nat)
    requires Valid(db) && AssignBank(db, tx, target, actor).Committed?
    ensures tx in db.bank && TargetOk(db, target)
    ensures var next, t, n := AssignBank(db, tx, target, actor).db, db.bank[tx], |db.payments|;
      && PaysPart(db, next, t, target)
      && |next.payments| == n + 1 && next.payments[..n] == db.payments
      && next.payments[n].person == PayerOf(db, target) && next.payments[n].amount == t.amount
      && !next.payments[n].reversed && next.payments[n].settles.None?
      && Free(next, n) == t.amount - AssignedPart(db, t, target)
      && next.bank == db.bank[tx := t.(status := Assigned, payment := Some(n), person := Some(PayerOf(db, target)))]
  {
    AssignsIff(db, tx, target, actor);
    AssignBooks(db, tx, target, actor);
    var t := db.bank[tx];
    var req, key := AssignRequest(db, t, target), BankKey(tx, t.payment);
    assert MoneyOk(db);
    assert req.person == PayerOf(db, target) && req.amount == t.amount;
    hide Valid, MoneyOk, AssignBank, RecordPayment, Assignable, KeyIsNew, Used, AssignRequest, TargetOk, PayerOf, AssignedPart, PaysPart, Free;
    ReceiptIsAdded(db, req, actor, key);
    AssignedLinks(db, t, target, actor, key);
    var r, next := RecordPayment(db, req, actor, key), AssignBank(db, tx, target, actor).db;
    FreeOf(r.db, next);
    SamePart(db, r.db, next, t, target);
  }

  lemma SamePart(db: Db, mid: Db, next: Db, t: BankTx, target: Target)
    requires TargetOk(db, target) && PaysPart(db, mid, t, target) && next.invoices == mid.invoices && next.links == mid.links
    ensures PaysPart(db, next, t, target)
  {
  }

  lemma FreeOf(db: Db, next: Db)
    requires next.payments == db.payments && next.links == db.links && next.allocs == db.allocs
    ensures forall p :: 0 <= p < |db.payments| ==> Free(next, p) == Free(db, p)
  {
  }

  lemma AssignedLinks(db: Db, t: BankTx, target: Target, actor: nat, key: PaymentKey)
    requires MoneyOk(db) && TargetOk(db, target) && t.amount > 0
    requires RecordPayment(db, AssignRequest(db, t, target), actor, key).Paid?
    ensures var r, part := RecordPayment(db, AssignRequest(db, t, target), actor, key), AssignedPart(db, t, target);
      r.unallocated == t.amount - part && PaysPart(db, r.db, t, target)
  {
    hide MoneyOk, OpenOldestFirst, FindKey;
    var req := AssignRequest(db, t, target);
    if target.ToInvoice? {
      var i, part := target.invoice, AssignedPart(db, t, target);
      ChosenIsLinked(db, req, actor, key, i, part);
      RemainingIs(db, req, actor, key, i, part);
    } else {
      NothingExplicit();
    }
  }

  lemma ChosenIsLinked(db: Db, req: Request, actor: nat, key: PaymentKey, i: nat, part: int)
    requires RecordPayment(db, req, actor, key).Paid? && req.allocations == [(i, part)]
    requires i < |db.invoices| && IsOpen(db.invoices[i], req.person)
    requires 0 < part <= req.amount && part <= OpenAmount(db, i)
    ensures var next := RecordPayment(db, req, actor, key).db;
      && next.invoices == db.invoices[i := db.invoices[i].(paid := db.invoices[i].paid + part)]
      && next.links == db.links + [Link(i, |db.payments|, part)]
  {
    hide OpenOldestFirst, FindKey, BookLoop, Explicit;
    var ids := OpenOldestFirst(db, req.person);
    OpenAreListed(db, req.person);
    OneEntry(i, part);
    assert Distinct(ids);
    hide ListsOpen, IsOpen;
    OneChosen(AddPayment(db, Payment(req.person, req.amount, false, None, actor, key, req)), ids, |db.payments|, req.amount, i, part, req.auto);
  }

  lemma NothingExplicit()
    ensures Explicit([]) == map[]
  {
  }

  lemma OneEntry(i: nat, part: int)
    ensures Explicit([(i, part)]) == map[i := part]
  {
    assert [(i, part)][..0] == [];
    NothingExplicit();
  }

  /** What a receipt with one link has left. */
  lemma RemainingIs(db: Db, req: Request, actor: nat, key: PaymentKey, i: nat, part: int)
    requires MoneyOk(db) && i < |db.invoices|
    requires var r := RecordPayment(db, req, actor, key); r.Paid? && r.db.links == db.links + [Link(i, |db.payments|, part)]
    ensures RecordPayment(db, req, actor, key).unallocated == req.amount - part
  {
    var n := |db.payments|;
    ReceiptIsAdded(db, req, actor, key);
    SumsAppend(db.links, Link(i, n, part), i, n);
    forall k | 0 <= k < |db.links| ensures db.links[k].payment != n { assert LinkOk(db, db.links[k]); }
    forall k | 0 <= k < |db.allocs| ensures db.allocs[k].payment != n { }
    NoRowsNoSum(db.links, i, n);
    NoAllocsNoSum(db.allocs, n);
    hide MoneyOk, RecordPayment;
  }

  // ---------- a withheld deposit ----------

  /** A withheld deposit pays its person's open documents, oldest first, with a receipt of its amount. */
  lemma WithheldDepositPays(db: Db, person: nat, known: bool, amount: int, actor: nat) returns (ids: seq<nat>)
    requires Valid(db) && CreateDeposit(db, person, known, Withheld, amount, actor).Committed?
    ensures ListsOpen(db, person, ids)
    ensures var next, n := CreateDeposit(db, person, known, Withheld, amount, actor).db, |db.payments|;
      && Pays(db, next.invoices, [], ids, amount)
      && |next.payments| == n + 1 && next.payments[..n] == db.payments
      && next.payments[n].person == person && next.payments[n].amount == amount && !next.payments[n].reversed
      && Free(next, n) == amount - Min(amount, SumWanted(db, [], ids))
      && next.deposits == db.deposits + [Deposit(db.nextDeposit, person, Withheld, amount, Some(n))]
  {
    assert MoneyOk(db) && KeysOk(db);
    var req, key := Request(person, amount, true, []), DepositKey(db.nextDeposit);
    hide Valid, MoneyOk, KeysOk, RecordPayment, Balance, Used, ListsOpen, Pays, SumWanted;
    WithholdingIsNew(db, req, actor);
    ids := PaymentPaysTheChosenParts(db, req, actor, key);
    ReceiptIsAdded(db, req, actor, key);
    var r, next := RecordPayment(db, req, actor, key), CreateDeposit(db, person, known, Withheld, amount, actor).db;
    FreeOf(r.db, next);
  }

  /**
   A deposit is booked if and only if its amount is positive, its person exists and, unless it is
   received, the balance covers it; received and refunded ones add their row and nothing else.
   */
  lemma DepositIsBookedIff(db: Db, person: nat, known: bool, kind: DepositKind, amount: int, actor: nat)
    requires Valid(db)
    ensures var o := CreateDeposit(db, person, known, kind, amount, actor);
      && (o.Committed? <==>
            amount > 0 && known && (kind.Received? || amount <= Balance(db.deposits, db.payments, person)))
      && (o.Committed? && !kind.Withheld? ==>
            o.db == db.(deposits := db.deposits + [Deposit(db.nextDeposit, person, kind, amount, None)],
                        nextDeposit := db.nextDeposit + 1))
  {
    assert KeysOk(db);
    var req, key := Request(person, amount, true, []), DepositKey(db.nextDeposit);
    hide Valid, KeysOk, RecordPayment, Balance;
    WithholdingIsNew(db, req, actor);
    ReceiptIsBookedIff(db, req, actor, key);
    NewDepositKey(db, actor);
  }

  lemma NewDepositKey(db: Db, actor: nat)
    requires KeysOk(db)
    ensures KeyIsNew(db, actor, DepositKey(db.nextDeposit))
  {
    DepositKeyIsNew(db, actor);
    hide FindKey;
  }
}
