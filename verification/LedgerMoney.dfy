/**
 Where the money is: what the allocation loops book, link by link, and the sums they keep.
 */
module LedgerMoney {
  import opened PeriodKeys
  import opened Accrual
  import opened OwedLines
  import opened InvoiceLines
  import opened LedgerState

  // ---------- the books ----------

  predicate LinkOk(db: Db, l: Link) {
    && l.amount > 0 && l.invoice < |db.invoices| && l.payment < |db.payments|
    && db.invoices[l.invoice].person == db.payments[l.payment].person
    && Active(db.invoices[l.invoice]) && !db.payments[l.payment].reversed
  }

  predicate LinksOk(db: Db) {
    forall k :: 0 <= k < |db.links| ==> LinkOk(db, db.links[k])
  }

  /** Every document's paid amount is the sum of its links; an active one is never overpaid. */
  predicate PaidOk(db: Db) {
    forall i :: 0 <= i < |db.invoices| ==>
      && db.invoices[i].paid == Linked(db.links, i)
      && (Active(db.invoices[i]) ==> 0 <= db.invoices[i].paid <= db.invoices[i].total)
  }

  /** No receipt is spent beyond its amount. */
  predicate UsedOk(db: Db) {
    forall p :: 0 <= p < |db.payments| ==> 0 <= Used(db, p) <= db.payments[p].amount
  }

  /** Allocations to charges are of standing receipts. */
  predicate AllocRowsOk(db: Db) {
    forall k :: 0 <= k < |db.allocs| ==>
      && db.allocs[k].amount > 0 && db.allocs[k].payment < |db.payments|
      && !db.payments[db.allocs[k].payment].reversed
  }

  predicate MoneyOk(db: Db) {
    LinksOk(db) && PaidOk(db) && UsedOk(db) && AllocRowsOk(db)
  }

  // ---------- sums ----------

  lemma SumsAppend(links: seq<Link>, l: Link, i: nat, p: nat)
    ensures Linked(links + [l], i) == Linked(links, i) + (if l.invoice == i then l.amount else 0)
    ensures UsedByLinks(links + [l], p) == UsedByLinks(links, p) + (if l.payment == p then l.amount else 0)
  {
    assert (links + [l])[..|links|] == links;
  }

  lemma {:induction false} SumsBounded(links: seq<Link>, i: nat, p: nat)
    requires forall k :: 0 <= k < |links| ==> links[k].amount > 0
    ensures 0 <= LinkedVia(links, i, p) <= Linked(links, i)
    ensures LinkedVia(links, i, p) <= UsedByLinks(links, p)
  {
    if links != [] {
      SumsBounded(links[..|links| - 1], i, p);
    }
  }

  lemma {:induction false} NoRowsNoSum(links: seq<Link>, i: nat, p: nat)
    ensures (forall k :: 0 <= k < |links| ==> links[k].invoice != i) ==> Linked(links, i) == 0
    ensures (forall k :: 0 <= k < |links| ==> links[k].payment != p) ==> UsedByLinks(links, p) == 0
  {
    if links != [] {
      NoRowsNoSum(links[..|links| - 1], i, p);
    }
  }

  lemma {:induction false} DroppedRows(links: seq<Link>, i: nat, p: nat)
    ensures forall l :: l in DropInvoice(links, i) ==> l in links && l.invoice != i
    ensures forall l :: l in DropPayment(links, p) ==> l in links && l.payment != p
  {
    if links != [] {
      DroppedRows(links[..|links| - 1], i, p);
    }
  }

  /** Deleting an invoice's links clears its sum, keeps every other, and frees the receipts. */
  lemma {:induction false} DropInvoiceSums(links: seq<Link>, i: nat, j: nat, p: nat)
    ensures Linked(DropInvoice(links, i), j) == if j == i then 0 else Linked(links, j)
    ensures UsedByLinks(DropInvoice(links, i), p) == UsedByLinks(links, p) - LinkedVia(links, i, p)
  {
    if links != [] {
      var l := links[|links| - 1];
      var rest := DropInvoice(links[..|links| - 1], i);
      DropInvoiceSums(links[..|links| - 1], i, j, p);
      SumsAppend(rest, l, j, p);
      assert rest + [] == rest;
    }
  }

  /** Deleting a receipt's links takes exactly its share from every invoice. */
  lemma {:induction false} DropPaymentSums(links: seq<Link>, p: nat, i: nat, q: nat)
    ensures Linked(DropPayment(links, p), i) == Linked(links, i) - LinkedVia(links, i, p)
    ensures UsedByLinks(DropPayment(links, p), q) == if q == p then 0 else UsedByLinks(links, q)
  {
    if links != [] {
      var l := links[|links| - 1];
      var rest := DropPayment(links[..|links| - 1], p);
      DropPaymentSums(links[..|links| - 1], p, i, q);
      SumsAppend(rest, l, i, q);
      assert rest + [] == rest;
    }
  }

  // ---------- one link ----------

  /** The two states agree in everything but links and paid amounts. */
  predicate PaidFrame(db: Db, next: Db) {
    && next == db.(links := next.links, invoices := next.invoices)
    && |next.invoices| == |db.invoices|
    && forall i :: 0 <= i < |db.invoices| ==> next.invoices[i] == db.invoices[i].(paid := next.invoices[i].paid)
  }

  predicate CanLink(db: Db, i: nat, p: nat, amount: int) {
    && i < |db.invoices| && p < |db.payments| && Active(db.invoices[i]) && !db.payments[p].reversed
    && db.invoices[i].person == db.payments[p].person
    && 0 < amount <= OpenAmount(db, i) && amount <= Free(db, p)
  }

  lemma AddLinkSums(db: Db, i: nat, p: nat, amount: int, q: nat)
    requires i < |db.invoices|
    ensures PaidFrame(db, AddLink(db, i, p, amount))
    ensures Used(AddLink(db, i, p, amount), q) == Used(db, q) + (if q == p then amount else 0)
  {
    SumsAppend(db.links, Link(i, p, amount), i, q);
  }

  lemma AddLinkKeepsMoney(db: Db, i: nat, p: nat, amount: int)
    requires MoneyOk(db) && CanLink(db, i, p, amount)
    ensures MoneyOk(AddLink(db, i, p, amount))
  {
    var next := AddLink(db, i, p, amount);
    var l := Link(i, p, amount);
    forall j | 0 <= j < |next.invoices|
      ensures next.invoices[j].paid == Linked(next.links, j)
      ensures Active(next.invoices[j]) ==> 0 <= next.invoices[j].paid <= next.invoices[j].total
    {
      SumsAppend(db.links, l, j, p);
    }
    forall q | 0 <= q < |next.payments| ensures 0 <= Used(next, q) <= next.payments[q].amount {
      AddLinkSums(db, i, p, amount, q);
    }
    assert LinksOk(next) by {
      forall k | 0 <= k < |next.links| ensures LinkOk(next, next.links[k]) {
        if k < |db.links| { assert LinkOk(db, db.links[k]); }
      }
    }
  }

  // ---------- the payment loop ----------

  predicate Distinct(ids: seq<nat>) {
    forall j, k :: 0 <= j < k < |ids| ==> ids[j] != ids[k]
  }

  /** Active documents of one person that still have an open amount. */
  predicate OpenItems(db: Db, person: nat, ids: seq<nat>) {
    Distinct(ids) && forall k :: 0 <= k < |ids| ==> ids[k] < |db.invoices| && IsOpenItem(db, person, ids[k])
  }

  predicate Payer(db: Db, person: nat, p: nat) {
    p < |db.payments| && db.payments[p].person == person && !db.payments[p].reversed
  }

  lemma ShareFits(open: int, remaining: int, explicit: map<nat, int>, i: nat)
    requires open > 0 && remaining > 0
    ensures 0 <= ShareOf(open, remaining, explicit, i) <= Min(open, remaining)
    ensures explicit == map[] ==> ShareOf(open, remaining, explicit, i) == Min(open, remaining)
  {
  }

  lemma LinkLeavesTheRestOpen(db: Db, person: nat, ids: seq<nat>, p: nat, amount: int)
    requires ids != [] && OpenItems(db, person, ids) && Payer(db, person, p)
    ensures OpenItems(AddLink(db, ids[0], p, amount), person, ids[1..])
    ensures OpenItems(db, person, ids[1..])
    ensures Payer(AddLink(db, ids[0], p, amount), person, p)
  {
    var rest := ids[1..];
    forall k | 0 <= k < |rest| ensures rest[k] == ids[k + 1] && rest[k] != ids[0] { }
  }

  /** The loop books links only, keeps the books, and spends exactly what it no longer has. */
  lemma {:induction false} BookLoopKeepsMoney(
    db: Db, person: nat, ids: seq<nat>, p: nat, remaining: int, explicit: map<nat, int>, auto: bool)
    requires MoneyOk(db) && OpenItems(db, person, ids) && Payer(db, person, p) && 0 <= remaining <= Free(db, p)
    ensures var b := BookLoop(db, ids, p, remaining, explicit, auto);
      && MoneyOk(b.db) && PaidFrame(db, b.db) && 0 <= b.remaining <= remaining
      && Free(b.db, p) == Free(db, p) - (remaining - b.remaining)
    decreases |ids|
  {
    hide MoneyOk, IsOpenItem, Used;
    if ids == [] || remaining <= 0 || (explicit == map[] && !auto) {
    } else {
      var open := OpenAmount(db, ids[0]);
      OpenIsPositive(db, person, ids[0]);
      var share := ShareOf(open, remaining, explicit, ids[0]);
      ShareFits(open, remaining, explicit, ids[0]);
      LinkLeavesTheRestOpen(db, person, ids, p, share);
      if share <= 0 {
        BookLoopKeepsMoney(db, person, ids[1..], p, remaining, explicit, auto);
      } else {
        AddLinkKeepsMoney(db, ids[0], p, share);
        AddLinkSums(db, ids[0], p, share, p);
        BookLoopKeepsMoney(AddLink(db, ids[0], p, share), person, ids[1..], p, remaining - share, explicit, auto);
      }
    }
  }

  function SumOpen(db: Db, ids: seq<nat>): int
    requires forall k :: 0 <= k < |ids| ==> ids[k] < |db.invoices|
  {
    if ids == [] then 0 else OpenAmount(db, ids[0]) + SumOpen(db, ids[1..])
  }

  lemma {:induction false} SumOpenFrame(db: Db, next: Db, ids: seq<nat>)
    requires |db.invoices| == |next.invoices|
    requires forall k :: 0 <= k < |ids| ==> ids[k] < |db.invoices| && next.invoices[ids[k]] == db.invoices[ids[k]]
    ensures SumOpen(db, ids) == SumOpen(next, ids)
  {
    if ids != [] { SumOpenFrame(db, next, ids[1..]); }
  }

  lemma {:induction false} SumOpenNonnegative(db: Db, person: nat, ids: seq<nat>)
    requires OpenItems(db, person, ids)
    ensures 0 <= SumOpen(db, ids)
  {
    if ids != [] {
      assert OpenItems(db, person, ids[1..]) by {
        var rest := ids[1..];
        forall k | 0 <= k < |rest| ensures rest[k] == ids[k + 1] { }
      }
      SumOpenNonnegative(db, person, ids[1..]);
    }
  }

  function Clamp(x: int, top: int): int {
    if x <= 0 then 0 else Min(x, top)
  }

  // ---------- what the payment loop books where ----------

  /** What the request wants on one open item: all of it, or the chosen part, or nothing. */
  function Want(db: Db, explicit: map<nat, int>, i: nat): int
    requires i < |db.invoices|
  {
    if explicit == map[] then OpenAmount(db, i)
    else if i in explicit && explicit[i] > 0 then Min(OpenAmount(db, i), explicit[i])
    else 0
  }

  function SumWant(db: Db, explicit: map<nat, int>, ids: seq<nat>): int
    requires forall k :: 0 <= k < |ids| ==> ids[k] < |db.invoices|
  {
    if ids == [] then 0 else Want(db, explicit, ids[0]) + SumWant(db, explicit, ids[1..])
  }

  lemma {:induction false} SumWantFrame(db: Db, next: Db, explicit: map<nat, int>, ids: seq<nat>)
    requires |db.invoices| == |next.invoices|
    requires forall k :: 0 <= k < |ids| ==> ids[k] < |db.invoices| && next.invoices[ids[k]] == db.invoices[ids[k]]
    ensures SumWant(db, explicit, ids) == SumWant(next, explicit, ids)
  {
    if ids != [] { SumWantFrame(db, next, explicit, ids[1..]); }
  }

  lemma {:induction false} SumWantNonnegative(db: Db, person: nat, explicit: map<nat, int>, ids: seq<nat>)
    requires OpenItems(db, person, ids)
    ensures 0 <= SumWant(db, explicit, ids)
  {
    if ids != [] {
      assert OpenItems(db, person, ids[1..]) by {
        var rest := ids[1..];
        forall k | 0 <= k < |rest| ensures rest[k] == ids[k + 1] { }
      }
      SumWantNonnegative(db, person, explicit, ids[1..]);
    }
  }

  /** Item by item, in order, each gets what the ones before it left of `amount`, up to what is wanted on it. */
  predicate Flows(db: Db, after: Db, explicit: map<nat, int>, ids: seq<nat>, amount: int)
    requires forall k :: 0 <= k < |ids| ==> ids[k] < |db.invoices| && ids[k] < |after.invoices|
  {
    forall k :: 0 <= k < |ids| ==>
      after.invoices[ids[k]].paid
        == db.invoices[ids[k]].paid + Clamp(amount - SumWant(db, explicit, ids[..k]), Want(db, explicit, ids[k]))
  }

  lemma NothingFlows(db: Db, person: nat, explicit: map<nat, int>, ids: seq<nat>, amount: int)
    requires OpenItems(db, person, ids) && (ids == [] || amount <= 0)
    ensures Flows(db, db, explicit, ids, amount)
  {
    hide IsOpenItem, SumWant;
    forall k | 0 <= k < |ids| ensures Clamp(amount - SumWant(db, explicit, ids[..k]), Want(db, explicit, ids[k])) == 0 {
      assert OpenItems(db, person, ids[..k]);
      SumWantNonnegative(db, person, explicit, ids[..k]);
    }
  }

  lemma FlowsStep(db: Db, next: Db, after: Db, person: nat, explicit: map<nat, int>, ids: seq<nat>, amount: int)
    requires ids != [] && OpenItems(db, person, ids) && amount > 0
    requires |next.invoices| == |db.invoices| == |after.invoices|
    requires forall i :: 0 <= i < |db.invoices| && i != ids[0] ==> next.invoices[i] == db.invoices[i]
    requires forall k :: 0 <= k < |ids[1..]| ==> ids[1..][k] < |next.invoices|
    requires Flows(next, after, explicit, ids[1..], amount - Min(Want(db, explicit, ids[0]), amount))
    requires after.invoices[ids[0]].paid == db.invoices[ids[0]].paid + Min(Want(db, explicit, ids[0]), amount)
    requires Want(db, explicit, ids[0]) >= 0
    ensures Flows(db, after, explicit, ids, amount)
  {
    hide IsOpenItem, SumWant, Want, Clamp;
    forall k | 0 <= k < |ids|
      ensures after.invoices[ids[k]].paid
           == db.invoices[ids[k]].paid + Clamp(amount - SumWant(db, explicit, ids[..k]), Want(db, explicit, ids[k]))
    {
      if k == 0 {
        FlowsFirst(db, explicit, ids, amount);
      } else {
        assert ids[1..][k - 1] == ids[k];
        SumWantSplits(db, next, person, explicit, ids, k);
        ClampShifts(amount, Want(db, explicit, ids[0]), SumWant(next, explicit, ids[1..][..k - 1]), Want(db, explicit, ids[k]));
        WantFrame(db, next, explicit, ids[k]);
      }
    }
  }

  lemma FlowsFirst(db: Db, explicit: map<nat, int>, ids: seq<nat>, amount: int)
    requires ids != [] && amount > 0 && ids[0] < |db.invoices| && Want(db, explicit, ids[0]) >= 0
    ensures SumWant(db, explicit, ids[..0]) == 0
    ensures Clamp(amount, Want(db, explicit, ids[0])) == Min(Want(db, explicit, ids[0]), amount)
  {
    hide Want;
  }

  lemma SumWantSplits(db: Db, next: Db, person: nat, explicit: map<nat, int>, ids: seq<nat>, k: nat)
    requires 0 < k < |ids| && OpenItems(db, person, ids) && |next.invoices| == |db.invoices|
    requires forall i :: 0 <= i < |db.invoices| && i != ids[0] ==> next.invoices[i] == db.invoices[i]
    requires forall j :: 0 <= j < |ids[1..]| ==> ids[1..][j] < |next.invoices|
    ensures SumWant(db, explicit, ids[..k]) == Want(db, explicit, ids[0]) + SumWant(next, explicit, ids[1..][..k - 1])
    ensures 0 <= SumWant(next, explicit, ids[1..][..k - 1])
  {
    hide IsOpenItem, Want;
    var mid := ids[1..k];
    assert ids[1..][..k - 1] == mid && ids[..k][1..] == mid;
    assert OpenItems(db, person, mid) by {
      forall j | 0 <= j < |mid| ensures mid[j] == ids[j + 1] { }
    }
    SumWantNonnegative(db, person, explicit, mid);
    SumWantFrame(db, next, explicit, mid);
  }

  lemma ClampShifts(amount: int, first: int, between: int, wanted: int)
    requires amount > 0 && first >= 0 && between >= 0
    ensures Clamp(amount - Min(first, amount) - between, wanted) == Clamp(amount - (first + between), wanted)
  {
  }

  lemma WantFrame(db: Db, next: Db, explicit: map<nat, int>, i: nat)
    requires i < |db.invoices| == |next.invoices| && next.invoices[i] == db.invoices[i]
    ensures Want(next, explicit, i) == Want(db, explicit, i)
  {
  }

  lemma OpenIsPositive(db: Db, person: nat, i: nat)
    requires i < |db.invoices| && IsOpenItem(db, person, i)
    ensures OpenAmount(db, i) > 0 && Active(db.invoices[i]) && db.invoices[i].person == person
  {
  }

  lemma ShareIsWanted(db: Db, person: nat, explicit: map<nat, int>, i: nat, remaining: int)
    requires i < |db.invoices| && IsOpenItem(db, person, i) && remaining > 0
    ensures 0 <= Want(db, explicit, i)
    ensures ShareOf(OpenAmount(db, i), remaining, explicit, i) == Min(Want(db, explicit, i), remaining)
  {
  }

  /**
   A payment is a waterfall: each open item, in order, gets what the older ones left over, up
   to its open amount or the chosen part of it; exactly min(amount, total wanted) is booked,
   unchosen items get nothing, and nothing else moves.
   */
  lemma {:induction false} PaymentFlows(
    db: Db, person: nat, ids: seq<nat>, p: nat, amount: int, explicit: map<nat, int>, auto: bool)
    requires OpenItems(db, person, ids) && Payer(db, person, p) && amount >= 0 && (explicit != map[] || auto)
    ensures var b := BookLoop(db, ids, p, amount, explicit, auto);
      && |b.db.invoices| == |db.invoices|
      && b.remaining == amount - Min(amount, SumWant(db, explicit, ids))
      && Flows(db, b.db, explicit, ids, amount)
      && (forall i :: 0 <= i < |db.invoices| && i !in ids ==> b.db.invoices[i] == db.invoices[i])
    decreases |ids|
  {
    hide Flows, IsOpenItem, Want;
    var b := BookLoop(db, ids, p, amount, explicit, auto);
    SumWantNonnegative(db, person, explicit, ids);
    if ids == [] || amount <= 0 {
      NothingFlows(db, person, explicit, ids, amount);
    } else {
      var share := ShareOf(OpenAmount(db, ids[0]), amount, explicit, ids[0]);
      ShareIsWanted(db, person, explicit, ids[0], amount);
      LinkLeavesTheRestOpen(db, person, ids, p, share);
      var next := if share <= 0 then db else AddLink(db, ids[0], p, share);
      PaymentFlows(next, person, ids[1..], p, amount - share, explicit, auto);
      assert ids[0] !in ids[1..];
      SumWantFrame(db, next, explicit, ids[1..]);
      assert b == BookLoop(next, ids[1..], p, amount - share, explicit, auto);
      hide BookLoop, ShareOf;
      FlowsStep(db, next, b.db, person, explicit, ids, amount);
    }
  }

  /** Item by item, each gets what the ones before it left of `amount`, up to its open amount. */
  predicate Waterfall(db: Db, after: Db, ids: seq<nat>, amount: int)
    requires forall k :: 0 <= k < |ids| ==> ids[k] < |db.invoices| && ids[k] < |after.invoices|
  {
    forall k :: 0 <= k < |ids| ==>
      after.invoices[ids[k]].paid
        == db.invoices[ids[k]].paid + Clamp(amount - SumOpen(db, ids[..k]), OpenAmount(db, ids[k]))
  }

  lemma {:induction false} AllIsWanted(db: Db, ids: seq<nat>)
    requires forall k :: 0 <= k < |ids| ==> ids[k] < |db.invoices|
    ensures SumWant(db, map[], ids) == SumOpen(db, ids)
  {
    if ids != [] { AllIsWanted(db, ids[1..]); }
  }

  /** Automatic payment books exactly min(amount, total open), oldest first, and nothing else moves. */
  lemma AutoPaymentWaterfall(db: Db, person: nat, ids: seq<nat>, p: nat, amount: int)
    requires OpenItems(db, person, ids) && Payer(db, person, p) && amount >= 0
    ensures var b := BookLoop(db, ids, p, amount, map[], true);
      && |b.db.invoices| == |db.invoices|
      && b.remaining == amount - Min(amount, SumOpen(db, ids))
      && Waterfall(db, b.db, ids, amount)
      && (forall i :: 0 <= i < |db.invoices| && i !in ids ==> b.db.invoices[i] == db.invoices[i])
  {
    hide BookLoop, IsOpenItem;
    PaymentFlows(db, person, ids, p, amount, map[], true);
    AllIsWanted(db, ids);
    forall k | 0 <= k < |ids| ensures SumWant(db, map[], ids[..k]) == SumOpen(db, ids[..k]) { AllIsWanted(db, ids[..k]); }
  }
}
