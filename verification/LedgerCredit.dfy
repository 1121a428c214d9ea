/**
 The order in which money reaches open items, and the sweep that draws down credit: after it
 a person never has both money left and something to pay.
 */
module LedgerCredit {
  import opened PeriodKeys
  import opened Accrual
  import opened OwedLines
  import opened InvoiceLines
  import opened LedgerState
  import opened LedgerMoney

  // ---------- oldest first ----------

  predicate Ascending(ids: seq<nat>) {
    forall j, k :: 0 <= j < k < |ids| ==> ids[j] < ids[k]
  }

  /** By issue day, ties by id. */
  predicate OldestFirst(db: Db, ids: seq<nat>)
    requires forall k :: 0 <= k < |ids| ==> ids[k] < |db.invoices|
  {
    forall j, k :: 0 <= j < k < |ids| ==>
      db.invoices[ids[j]].issued < db.invoices[ids[k]].issued
      || (db.invoices[ids[j]].issued == db.invoices[ids[k]].issued && ids[j] < ids[k])
  }

  /** The list by id holds every open item once. */
  lemma {:induction false} OpenByIdComplete(db: Db, person: nat, n: nat)
    requires n <= |db.invoices|
    ensures Ascending(OpenById(db, person, n))
    ensures forall i :: 0 <= i < n && IsOpenItem(db, person, i) ==> i in OpenById(db, person, n)
  {
    hide IsOpenItem;
    if n > 0 {
      OpenByIdComplete(db, person, n - 1);
    }
  }

  lemma {:induction false} InsertKeepsOrder(db: Db, ids: seq<nat>, i: nat)
    requires i < |db.invoices| && forall k :: 0 <= k < |ids| ==> ids[k] < i
    requires OldestFirst(db, ids)
    ensures OldestFirst(db, InsertByIssue(db, ids, i))
    ensures forall x :: x in InsertByIssue(db, ids, i) <==> x == i || x in ids
    ensures |InsertByIssue(db, ids, i)| == |ids| + 1
  {
    if ids != [] {
      var n := |ids| - 1;
      var last := ids[n];
      assert ids == ids[..n] + [last];
      if db.invoices[last].issued > db.invoices[i].issued {
        InsertKeepsOrder(db, ids[..n], i);
        var r := InsertByIssue(db, ids[..n], i);
        forall j | 0 <= j < |r|
          ensures db.invoices[r[j]].issued < db.invoices[last].issued
               || (db.invoices[r[j]].issued == db.invoices[last].issued && r[j] < last)
        {
          assert r[j] in r;
        }
      }
    }
  }

  lemma {:induction false} SortOrders(db: Db, ids: seq<nat>)
    requires Ascending(ids) && forall k :: 0 <= k < |ids| ==> ids[k] < |db.invoices|
    ensures OldestFirst(db, SortByIssue(db, ids))
    ensures forall x :: x in SortByIssue(db, ids) <==> x in ids
    ensures |SortByIssue(db, ids)| == |ids|
  {
    if ids != [] {
      var n := |ids| - 1;
      SortOrders(db, ids[..n]);
      assert ids == ids[..n] + [ids[n]];
      var r := SortByIssue(db, ids[..n]);
      forall k | 0 <= k < |r| ensures r[k] < ids[n] {
        assert r[k] in r;
      }
      InsertKeepsOrder(db, r, ids[n]);
    }
  }

  /** What the payment loop walks: exactly the person's open items, each once, oldest first. */
  lemma OpenOldestFirstIsComplete(db: Db, person: nat)
    ensures var ids := OpenOldestFirst(db, person);
      && OpenItems(db, person, ids) && OldestFirst(db, ids)
      && forall i :: 0 <= i < |db.invoices| && IsOpenItem(db, person, i) ==> i in ids
  {
    hide IsOpenItem;
    var byId := OpenById(db, person, |db.invoices|);
    OpenByIdComplete(db, person, |db.invoices|);
    SortOrders(db, byId);
    var ids := SortByIssue(db, byId);
    forall k | 0 <= k < |ids| ensures IsOpenItem(db, person, ids[k]) {
      assert ids[k] in ids;
    }
  }

  // ---------- the payment closes a prefix ----------

  lemma {:induction false} SumOpenPrefix(db: Db, person: nat, ids: seq<nat>, j: nat, k: nat)
    requires OpenItems(db, person, ids) && j < k <= |ids|
    ensures SumOpen(db, ids[..j]) + OpenAmount(db, ids[j]) <= SumOpen(db, ids[..k])
  {
    hide IsOpenItem;
    var rest := ids[1..];
    assert ids[..k][1..] == rest[..k - 1];
    assert OpenItems(db, person, rest) by {
      forall x | 0 <= x < |rest| ensures rest[x] == ids[x + 1] { }
    }
    if j == 0 {
      assert OpenItems(db, person, rest[..k - 1]);
      SumOpenNonnegative(db, person, rest[..k - 1]);
    } else {
      assert ids[..j][1..] == rest[..j - 1];
      SumOpenPrefix(db, person, rest, j - 1, k - 1);
    }
  }

  /**
   If an automatic payment touched an item, it closed every older one: the items it closed are
   a prefix of the oldest-first order and at most one touched item stays open.
   */
  lemma OlderItemsCloseFirst(db: Db, after: Db, person: nat, ids: seq<nat>, amount: int, j: nat, k: nat)
    requires OpenItems(db, person, ids) && |after.invoices| == |db.invoices| && j < k < |ids|
    requires Waterfall(db, after, ids, amount)
    requires after.invoices[ids[k]].paid != db.invoices[ids[k]].paid
    ensures after.invoices[ids[j]].paid == db.invoices[ids[j]].total
  {
    SumOpenPrefix(db, person, ids, j, k);
    OpenIsPositive(db, person, ids[j]);
    hide SumOpen, IsOpenItem;
  }

  // ---------- credit ----------

  /** Standing receipts of one person, each once. */
  predicate Receipts(db: Db, person: nat, ids: seq<nat>) {
    Distinct(ids) && forall k :: 0 <= k < |ids| ==> Payer(db, person, ids[k])
  }

  function SumFree(db: Db, ids: seq<nat>): int
    requires forall k :: 0 <= k < |ids| ==> ids[k] < |db.payments|
  {
    if ids == [] then 0 else Free(db, ids[0]) + SumFree(db, ids[1..])
  }

  lemma {:induction false} SumFreeFrame(db: Db, next: Db, ids: seq<nat>)
    requires db.payments == next.payments
    requires forall k :: 0 <= k < |ids| ==> ids[k] < |db.payments| && Used(next, ids[k]) == Used(db, ids[k])
    ensures SumFree(db, ids) == SumFree(next, ids)
  {
    hide Used;
    if ids != [] {
      SumFreeFrame(db, next, ids[1..]);
    }
  }

  lemma {:induction false} SumFreeNonnegative(db: Db, ids: seq<nat>)
    requires UsedOk(db) && forall k :: 0 <= k < |ids| ==> ids[k] < |db.payments|
    ensures 0 <= SumFree(db, ids)
    ensures forall k :: 0 <= k < |ids| ==> 0 <= Free(db, ids[k]) <= SumFree(db, ids)
  {
    hide Used;
    if ids != [] {
      SumFreeNonnegative(db, ids[1..]);
      forall k | 0 <= k < |ids| ensures 0 <= Free(db, ids[k]) <= SumFree(db, ids) {
        if k > 0 { assert ids[k] == ids[1..][k - 1]; }
      }
    }
  }

  /** One invoice's draw: books links of `ids` on invoice `i` only. */
  ghost predicate DrewOn(db: Db, next: Db, i: nat, ids: seq<nat>, drawn: int) {
    && i < |db.invoices| && PaidFrame(db, next)
    && next.invoices == db.invoices[i := db.invoices[i].(paid := db.invoices[i].paid + drawn)]
    && (forall q :: q !in ids ==> Used(next, q) == Used(db, q))
    && (forall k :: 0 <= k < |ids| ==> ids[k] < |db.payments|)
    && SumFree(next, ids) == SumFree(db, ids) - drawn
  }

  lemma DrewStep(db: Db, mid: Db, next: Db, i: nat, ids: seq<nat>, amount: int, drawn: int)
    requires ids != [] && Distinct(ids) && i < |db.invoices| && forall k :: 0 <= k < |ids| ==> ids[k] < |db.payments|
    requires mid == AddLink(db, i, ids[0], amount) || (mid == db && amount == 0)
    requires DrewOn(mid, next, i, ids[1..], drawn)
    ensures DrewOn(db, next, i, ids, amount + drawn)
  {
    assert ids[0] !in ids[1..];
    forall q ensures Used(mid, q) == Used(db, q) + (if q == ids[0] then amount else 0) {
      AddLinkSums(db, i, ids[0], amount, q);
    }
    hide Used;
    SumFreeFrame(db, mid, ids[1..]);
    assert forall q :: q !in ids ==> q !in ids[1..];
  }

  /** Covering one invoice draws min(open, free credit). */
  lemma {:induction false} DrawForDraws(db: Db, person: nat, i: nat, open: int, ids: seq<nat>)
    requires MoneyOk(db) && Receipts(db, person, ids)
    requires i < |db.invoices| && Active(db.invoices[i]) && db.invoices[i].person == person
    requires open == OpenAmount(db, i)
    ensures var next := DrawFor(db, i, open, ids);
      MoneyOk(next) && DrewOn(db, next, i, ids, Min(open, SumFree(db, ids)))
    decreases |ids|
  {
    hide MoneyOk, Used, SumFree, IsOpenItem, DrewOn;
    MoneyImpliesUsed(db);
    if ids == [] || open <= 0 {
      SumFreeNonnegative(db, ids);
      NothingDrawn(db, i, ids);
    } else {
      var mid := DrawMid(db, person, i, open, ids);
      var amount := Min(Free(db, ids[0]), open);
      hide DrawFor, Receipts;
      DrawForDraws(mid, person, i, open - amount, ids[1..]);
      hide Free, OpenAmount, Active, AddLink;
      DrewStep(db, mid, DrawFor(mid, i, open - amount, ids[1..]), i, ids, amount, Min(open - amount, SumFree(mid, ids[1..])));
    }
  }

  lemma NothingDrawn(db: Db, i: nat, ids: seq<nat>)
    requires i < |db.invoices| && forall k :: 0 <= k < |ids| ==> ids[k] < |db.payments|
    ensures DrewOn(db, db, i, ids, 0)
    ensures ids == [] ==> SumFree(db, ids) == 0
  {
    assert db.invoices == db.invoices[i := db.invoices[i].(paid := db.invoices[i].paid + 0)];
  }

  /** The state after the first receipt was considered. */
  lemma DrawMid(db: Db, person: nat, i: nat, open: int, ids: seq<nat>) returns (mid: Db)
    requires MoneyOk(db) && Receipts(db, person, ids) && ids != []
    requires i < |db.invoices| && Active(db.invoices[i]) && db.invoices[i].person == person
    requires open == OpenAmount(db, i) > 0
    ensures var amount := Min(Free(db, ids[0]), open);
      && amount >= 0 && MoneyOk(mid) && Receipts(mid, person, ids[1..])
      && (mid == AddLink(db, i, ids[0], amount) || (mid == db && amount == 0))
      && DrawFor(db, i, open, ids) == DrawFor(mid, i, open - amount, ids[1..])
      && SumFree(db, ids) == Free(db, ids[0]) + SumFree(mid, ids[1..]) && SumFree(mid, ids[1..]) >= 0
  {
    var p, rest := ids[0], ids[1..];
    assert Payer(db, person, p);
    assert Receipts(db, person, rest) by {
      forall k | 0 <= k < |rest| ensures rest[k] == ids[k + 1] { }
    }
    SumFreeNonnegative(db, rest);
    hide Used;
    var amount := Min(Free(db, p), open);
    mid := if amount <= 0 then db else AddLink(db, i, p, amount);
    if amount > 0 { hide MoneyOk; AddLinkKeepsMoney(db, i, p, amount); }
    SumFreeMid(db, mid, i, ids, amount);
  }

  lemma SumFreeMid(db: Db, mid: Db, i: nat, ids: seq<nat>, amount: int)
    requires ids != [] && Distinct(ids) && i < |db.invoices| && forall k :: 0 <= k < |ids| ==> ids[k] < |db.payments|
    requires mid == AddLink(db, i, ids[0], amount) || mid == db
    ensures mid.payments == db.payments && SumFree(mid, ids[1..]) == SumFree(db, ids[1..])
  {
    assert ids[0] !in ids[1..];
    forall q | q != ids[0] ensures Used(mid, q) == Used(db, q) {
      AddLinkSums(db, i, ids[0], amount, q);
    }
    hide Used;
    SumFreeFrame(db, mid, ids[1..]);
  }

  /** What the sweep over `open` with receipts `ids` did: money moved, nothing else. */
  ghost predicate Swept(db: Db, next: Db, open: seq<nat>, ids: seq<nat>) {
    && PaidFrame(db, next)
    && (forall k :: 0 <= k < |open| ==> open[k] < |db.invoices|)
    && (forall k :: 0 <= k < |ids| ==> ids[k] < |db.payments|)
    && (forall i :: 0 <= i < |db.invoices| && i !in open ==> next.invoices[i] == db.invoices[i])
    && (forall i :: 0 <= i < |db.invoices| ==> next.invoices[i].paid >= db.invoices[i].paid)
    && (forall q :: q !in ids ==> Used(next, q) == Used(db, q))
    && SumOpen(next, open) == SumOpen(db, open) - Min(SumOpen(db, open), SumFree(db, ids))
    && SumFree(next, ids) == SumFree(db, ids) - Min(SumOpen(db, open), SumFree(db, ids))
  }

  lemma DrewLeavesOpen(db: Db, mid: Db, person: nat, open: seq<nat>, ids: seq<nat>, drawn: int)
    requires open != [] && OpenItems(db, person, open) && Receipts(db, person, ids) && DrewOn(db, mid, open[0], ids, drawn)
    ensures OpenItems(mid, person, open[1..]) && OpenItems(db, person, open[1..])
    ensures Receipts(mid, person, ids)
    ensures SumOpen(mid, open[1..]) == SumOpen(db, open[1..])
    ensures SumOpen(mid, open) == SumOpen(db, open) - drawn
  {
    hide Used, SumFree;
    var rest := open[1..];
    forall k | 0 <= k < |rest| ensures rest[k] == open[k + 1] && rest[k] != open[0] { }
    SumOpenFrame(db, mid, rest);
  }

  lemma SweptStep(db: Db, mid: Db, next: Db, open: seq<nat>, ids: seq<nat>, drawn: int)
    requires open != [] && Distinct(open) && (forall k :: 0 <= k < |open| ==> open[k] < |db.invoices|)
    requires DrewOn(db, mid, open[0], ids, drawn) && drawn >= 0 && Swept(mid, next, open[1..], ids)
    requires SumOpen(mid, open[1..]) == SumOpen(db, open[1..]) && 0 <= SumOpen(db, open[1..]) && 0 <= SumFree(mid, ids)
    requires drawn == Min(OpenAmount(db, open[0]), SumFree(db, ids))
    ensures Swept(db, next, open, ids)
  {
    hide Used, SumFree;
    assert open[0] !in open[1..];
    assert forall i :: i !in open ==> i !in open[1..];
    assert next.invoices[open[0]] == mid.invoices[open[0]];
    assert SumOpen(db, open) == OpenAmount(db, open[0]) + SumOpen(db, open[1..]);
    assert SumOpen(next, open) == OpenAmount(db, open[0]) - drawn + SumOpen(next, open[1..]);
    hide SumOpen;
  }

  /** The sweep moves exactly min(total open, total free credit) and keeps the books. */
  lemma {:induction false} DrawLoopSweeps(db: Db, person: nat, open: seq<nat>, ids: seq<nat>)
    requires MoneyOk(db) && OpenItems(db, person, open) && Receipts(db, person, ids)
    ensures MoneyOk(DrawLoop(db, open, ids)) && Swept(db, DrawLoop(db, open, ids), open, ids)
    decreases |open|
  {
    SumFreeNonnegative(db, ids);
    hide MoneyOk, Used;
    if open != [] {
      var first := OpenAmount(db, open[0]);
      OpenIsPositive(db, person, open[0]);
      DrawForShape(db, open[0], first, ids);
      DrawForDraws(db, person, open[0], first, ids);
      var mid := DrawFor(db, open[0], first, ids);
      var drawn := Min(first, SumFree(db, ids));
      DrewLeavesOpen(db, mid, person, open, ids, drawn);
      DrawLoopSweeps(mid, person, open[1..], ids);
      SumOpenNonnegative(db, person, open[1..]);
      assert MoneyOk(mid);
      FreeStaysNonnegative(mid, ids);
      assert DrawLoop(db, open, ids) == DrawLoop(mid, open[1..], ids);
      hide DrawLoop, DrawFor, Swept, DrewOn, SumOpen, SumFree;
      SweptStep(db, mid, DrawLoop(db, open, ids), open, ids, drawn);
    }
  }

  lemma FreeStaysNonnegative(db: Db, ids: seq<nat>)
    requires MoneyOk(db) && forall k :: 0 <= k < |ids| ==> ids[k] < |db.payments|
    ensures 0 <= SumFree(db, ids)
  {
    SumFreeNonnegative(db, ids);
  }

  lemma {:induction false} CreditPaymentsComplete(db: Db, person: nat, n: nat)
    requires n <= |db.payments|
    ensures Ascending(CreditPayments(db, person, n))
    ensures forall p :: 0 <= p < n && IsCredit(db, person, p) ==> p in CreditPayments(db, person, n)
  {
    hide IsCredit;
    if n > 0 {
      CreditPaymentsComplete(db, person, n - 1);
    }
  }

  lemma ApplyCreditSweeps(db: Db, person: nat)
    requires MoneyOk(db)
    ensures var open, ids := OpenById(db, person, |db.invoices|), CreditPayments(db, person, |db.payments|);
      && OpenItems(db, person, open) && Receipts(db, person, ids)
      && MoneyOk(ApplyCredit(db, person)) && Swept(db, ApplyCredit(db, person), open, ids)
  {
    var open, ids := OpenById(db, person, |db.invoices|), CreditPayments(db, person, |db.payments|);
    OpenByIdComplete(db, person, |db.invoices|);
    CreditPaymentsComplete(db, person, |db.payments|);
    hide MoneyOk, Used;
    DrawLoopSweeps(db, person, open, ids);
  }

  /** Whatever is still open or free after the sweep was on its lists. */
  lemma SweepSawEverything(db: Db, person: nat, i: nat, p: nat)
    requires MoneyOk(db)
    ensures var next := ApplyCredit(db, person);
      && (i < |next.invoices| && IsOpenItem(next, person, i) ==> i in OpenById(db, person, |db.invoices|))
      && (p < |next.payments| && IsCredit(next, person, p) ==> p in CreditPayments(db, person, |db.payments|))
  {
    ApplyCreditSweeps(db, person);
    OpenByIdComplete(db, person, |db.invoices|);
    CreditPaymentsComplete(db, person, |db.payments|);
    hide ApplyCredit, OpenById, CreditPayments, MoneyOk, Used, SumFree, SumOpen;
  }

  /** After the sweep, leftover credit and an open invoice of one person never coexist. */
  lemma NoCreditBesideDebt(db: Db, person: nat, i: nat, p: nat)
    requires MoneyOk(db)
    ensures var next := ApplyCredit(db, person);
      !(i < |next.invoices| && p < |next.payments| && IsOpenItem(next, person, i) && IsCredit(next, person, p))
  {
    var open, ids := OpenById(db, person, |db.invoices|), CreditPayments(db, person, |db.payments|);
    var next := ApplyCredit(db, person);
    ApplyCreditSweeps(db, person);
    SweepSawEverything(db, person, i, p);
    hide ApplyCredit, OpenById, CreditPayments, MoneyOk, Used, SumFree, SumOpen;
    if i < |next.invoices| && p < |next.payments| && IsOpenItem(next, person, i) && IsCredit(next, person, p) {
      DebtBelowSum(next, person, open, i);
      CreditBelowSum(next, ids, p);
    }
  }

  lemma CreditBelowSum(db: Db, ids: seq<nat>, p: nat)
    requires MoneyOk(db) && p in ids && forall k :: 0 <= k < |ids| ==> ids[k] < |db.payments|
    ensures p < |db.payments| && Free(db, p) <= SumFree(db, ids)
  {
    MoneyImpliesUsed(db);
    SumFreeNonnegative(db, ids);
    var k :| 0 <= k < |ids| && ids[k] == p;
  }

  lemma MoneyImpliesUsed(db: Db)
    requires MoneyOk(db)
    ensures UsedOk(db) && forall i :: 0 <= i < |db.invoices| && Active(db.invoices[i]) ==> OpenAmount(db, i) >= 0
  {
  }

  lemma DebtBelowSum(db: Db, person: nat, ids: seq<nat>, i: nat)
    requires MoneyOk(db) && i in ids
    requires forall k :: 0 <= k < |ids| ==> ids[k] < |db.invoices| && Active(db.invoices[ids[k]])
    ensures i < |db.invoices| && OpenAmount(db, i) <= SumOpen(db, ids)
  {
    MoneyImpliesUsed(db);
    hide MoneyOk;
    MemberBelowSum(db, person, ids, i);
  }

  lemma {:induction false} MemberBelowSum(db: Db, person: nat, ids: seq<nat>, i: nat)
    requires (forall k :: 0 <= k < |ids| ==> ids[k] < |db.invoices| && OpenAmount(db, ids[k]) >= 0) && i in ids
    ensures 0 <= OpenAmount(db, i) <= SumOpen(db, ids)
  {
    if ids[0] == i {
      AllOpenSum(db, ids[1..]);
    } else {
      MemberBelowSum(db, person, ids[1..], i);
    }
  }

  lemma {:induction false} AllOpenSum(db: Db, ids: seq<nat>)
    requires forall k :: 0 <= k < |ids| ==> ids[k] < |db.invoices| && OpenAmount(db, ids[k]) >= 0
    ensures SumOpen(db, ids) >= 0
  {
    if ids != [] { AllOpenSum(db, ids[1..]); }
  }

  /** A second sweep finds nothing to do. */
  lemma SweepIsIdempotent(db: Db, person: nat)
    requires MoneyOk(db)
    ensures ApplyCredit(ApplyCredit(db, person), person) == ApplyCredit(db, person)
  {
    var next := ApplyCredit(db, person);
    var open, ids := OpenById(next, person, |next.invoices|), CreditPayments(next, person, |next.payments|);
    if open != [] && ids != [] {
      NoCreditBesideDebt(db, person, open[0], ids[0]);
    } else {
      NothingToDraw(next, open, ids);
    }
  }

  lemma {:induction false} NothingToDraw(db: Db, open: seq<nat>, ids: seq<nat>)
    requires forall k :: 0 <= k < |open| ==> open[k] < |db.invoices|
    requires forall k :: 0 <= k < |ids| ==> ids[k] < |db.payments|
    requires open == [] || ids == []
    ensures DrawLoop(db, open, ids) == db
    decreases |open|
  {
    if open != [] { NothingToDraw(db, open[1..], ids); }
  }
}
