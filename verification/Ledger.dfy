/**
 The ledger as the handlers run it: one object whose fields are the tables, changed row by row
 inside a transaction. Each method is proved to do exactly what its transaction function says
 and to keep the ledger valid.
 */
module Ledgers {
  import opened PeriodKeys
  import opened Accrual
  import opened OwedLines
  import opened InvoiceLines
  import opened LedgerState
  import opened LedgerMoney
  import opened LedgerCredit
  import opened LedgerClaims
  import opened LedgerReceipts
  import opened LedgerRuns

  function ErrorOf(o: Outcome): Option<Error> {
    match o
    case Committed(_) => None
    case RolledBack(e) => Some(e)
  }

  /** A conflicting line stops the locking, whatever lines follow. */
  lemma {:induction false} LockingStops(
    sources: map<Position, nat>, allocs: seq<Alloc>, lines: seq<OwedItem>, id: nat, k: nat)
    requires k <= |lines| && LockAll(sources, allocs, lines[..k], id).Conflict?
    ensures LockAll(sources, allocs, lines, id) == LockAll(sources, allocs, lines[..k], id)
  {
    hide LockNext;
    var n := |lines| - 1;
    if k == |lines| {
      assert lines[..k] == lines;
    } else {
      assert lines[..n][..k] == lines[..k];
      LockingStops(sources, allocs, lines[..n], id, k);
      ConflictStays(LockAll(sources, allocs, lines[..n], id), allocs, lines[n].position, id);
    }
  }

  lemma ConflictStays(locks: Locking, allocs: seq<Alloc>, p: Position, id: nat)
    requires locks.Conflict?
    ensures LockNext(locks, allocs, p, id) == locks
  {
  }

  lemma LockAllStep(sources: map<Position, nat>, allocs: seq<Alloc>, lines: seq<OwedItem>, id: nat, k: nat)
    requires k < |lines|
    ensures LockAll(sources, allocs, lines[..k + 1], id)
         == LockNext(LockAll(sources, allocs, lines[..k], id), allocs, lines[k].position, id)
  {
    assert lines[..k + 1][..k] == lines[..k];
  }

  /** What a caller learns about a receipt it asked for. */
  datatype Reply = Accepted(payment: nat, unallocated: int) | Again(payment: nat) | Denied(error: Error)

  class Ledger {
    var nextNo: nat
    var prefix: string
    var pad: nat
    var invoices: seq<Invoice>
    var payments: seq<Payment>
    var links: seq<Link>
    var allocs: seq<Alloc>
    var sources: map<Position, nat>
    var charges: seq<ChargeRow>
    var nextCharge: nat
    var deposits: seq<Deposit>
    var nextDeposit: nat
    var bank: map<nat, BankTx>

    function Snapshot(): Db
      reads this
    {
      Db(nextNo, prefix, pad, invoices, payments, links, allocs, sources, charges, nextCharge, deposits, nextDeposit, bank)
    }

    ghost predicate Ok()
      reads this
    {
      Valid(Snapshot())
    }

    constructor ()
      ensures Ok() && Snapshot() == Empty()
    {
      nextNo, prefix, pad := 1, "", 4;
      invoices, payments, links, allocs := [], [], [], [];
      sources, charges, nextCharge, deposits, nextDeposit, bank := map[], [], 0, [], 0, map[];
      new;
      hide Valid;
      EmptyIsValid();
    }

    // ---------- documents ----------

    method SumOf(lines: seq<OwedItem>) returns (subtotal: int)
      ensures subtotal == SumLines(lines)
    {
      subtotal := 0;
      for k := 0 to |lines|
        invariant subtotal == SumLines(lines[..k])
      {
        assert lines[..k + 1][..k] == lines[..k];
        subtotal := subtotal + lines[k].amount;
      }
      assert lines[..|lines|] == lines;
    }

    method CreateInvoice(person: nat, known: bool, acc: Accounts, rate: nat, parts: Particulars, asOf: nat)
      returns (error: Option<Error>)
      requires Ok()
      modifies this
      ensures Ok() && Snapshot() == Apply(old(Snapshot()), LedgerState.CreateInvoice(old(Snapshot()), person, known, acc, rate, parts, asOf))
      ensures error == ErrorOf(LedgerState.CreateInvoice(old(Snapshot()), person, known, acc, rate, parts, asOf))
    {
      hide Valid, AllLines, LockAll, LockNext, Gross, NumberText, NumberIsTaken;
      CreateInvoiceKeepsValid(Snapshot(), person, known, acc, rate, parts, asOf);
      if !known { return Some(PersonNotFound); }
      var lines := ComputeLines(BillableOf(Snapshot(), person, acc), asOf, LockedPositions(Snapshot(), person));
      if |lines| == 0 { return Some(NoOpenItems); }
      var subtotal := SumOf(lines);
      var total := Gross(subtotal, rate);
      if !Compliant(parts, total) { return Some(NotCompliant); }
      var number := NumberText(Snapshot());
      if NumberIsTaken(Snapshot(), number) { return Some(NumberTaken); }
      var locks := LockPositions(lines, |invoices|);
      if locks.Conflict? { return Some(locks.error); }
      invoices := invoices + [Invoice(person, nextNo, number, asOf, total, 0, false, None, lines)];
      sources := locks.sources;
      nextNo := nextNo + 1;
      return None;
    }

    /** Inserts one lock row per line; the first line that cannot be locked decides. */
    method LockPositions(lines: seq<OwedItem>, id: nat) returns (r: Locking)
      ensures r == LockAll(sources, allocs, lines, id)
    {
      hide LockAll, LockNext;
      var rows: map<Position, nat> := sources;
      NothingLocked(sources, allocs, lines, id);
      for k := 0 to |lines|
        invariant LockAll(sources, allocs, lines[..k], id) == Locks(rows)
      {
        var p := lines[k].position;
        LockAllStep(sources, allocs, lines, id, k);
        if p in rows {
          LockTaken(rows, allocs, p, id);
          LockingStops(sources, allocs, lines, id, k + 1);
          return Conflict(AlreadyBilled);
        }
        if p.kind.OneOffCharge? && ChargeHasAlloc(allocs, p.ref) {
          LockClaimed(rows, allocs, p, id);
          LockingStops(sources, allocs, lines, id, k + 1);
          return Conflict(ChargeClaimed);
        }
        LockFree(rows, allocs, p, id);
        rows := rows[p := id];
      }
      assert lines[..|lines|] == lines;
      return Locks(rows);
    }

    static lemma NothingLocked(rows: map<Position, nat>, allocs: seq<Alloc>, lines: seq<OwedItem>, id: nat)
      ensures LockAll(rows, allocs, lines[..0], id) == Locks(rows)
    {
    }

    static lemma LockTaken(rows: map<Position, nat>, allocs: seq<Alloc>, p: Position, id: nat)
      requires p in rows
      ensures LockNext(Locks(rows), allocs, p, id) == Conflict(AlreadyBilled)
    {
    }

    static lemma LockClaimed(rows: map<Position, nat>, allocs: seq<Alloc>, p: Position, id: nat)
      requires p !in rows && p.kind.OneOffCharge? && ChargeHasAlloc(allocs, p.ref)
      ensures LockNext(Locks(rows), allocs, p, id) == Conflict(ChargeClaimed)
    {
    }

    static lemma LockFree(rows: map<Position, nat>, allocs: seq<Alloc>, p: Position, id: nat)
      requires p !in rows && !(p.kind.OneOffCharge? && ChargeHasAlloc(allocs, p.ref))
      ensures LockNext(Locks(rows), allocs, p, id) == Locks(rows[p := id])
    {
    }

    method CancelInvoice(id: nat, asOf: nat) returns (error: Option<Error>)
      requires Ok()
      modifies this
      ensures Ok() && Snapshot() == Apply(old(Snapshot()), LedgerState.CancelInvoice(old(Snapshot()), id, asOf))
      ensures error == ErrorOf(LedgerState.CancelInvoice(old(Snapshot()), id, asOf))
    {
      hide Valid, NumberText, NumberIsTaken, DropInvoice;
      CancelInvoiceKeepsValid(Snapshot(), id, asOf);
      if id >= |invoices| { return Some(NotFound); }
      var o := invoices[id];
      if o.canceled { return Some(AlreadyCanceled); }
      if o.cancels.Some? { return Some(IsStorno); }
      var number := NumberText(Snapshot());
      if NumberIsTaken(Snapshot(), number) { return Some(NumberTaken); }
      var lines: seq<OwedItem> := [];
      for k := 0 to |o.lines|
        invariant |lines| == k && forall j :: 0 <= j < k ==> lines[j] == o.lines[j].(amount := -o.lines[j].amount)
      {
        lines := lines + [o.lines[k].(amount := -o.lines[k].amount)];
      }
      assert lines == Negated(o.lines);
      invoices := invoices[id := o.(canceled := true, paid := 0)];
      invoices := invoices + [Invoice(o.person, nextNo, number, asOf, -o.total, 0, false, Some(id), lines)];
      sources := map p | p in sources && sources[p] != id :: sources[p];
      links := DropInvoice(links, id);
      nextNo := nextNo + 1;
      return None;
    }

    method SaveSettings(next: int, newPrefix: string, newPad: int)
      requires Ok()
      modifies this
      ensures Ok() && Snapshot() == LedgerState.SaveSettings(old(Snapshot()), next, newPrefix, newPad)
    {
      hide Valid;
      SaveSettingsKeepsValid(Snapshot(), next, newPrefix, newPad);
      var wanted := if next < 1 then 1 else next;
      if nextNo < wanted { nextNo := wanted; }
      prefix, pad := newPrefix, if newPad < 1 || newPad > 10 then 4 else newPad;
    }

    // ---------- receipts ----------

    method RecordPayment(req: Request, actor: nat, key: PaymentKey) returns (r: Reply)
      modifies this
      ensures match LedgerState.RecordPayment(old(Snapshot()), req, actor, key)
              case Paid(next, p, rest) => Snapshot() == next && r == Accepted(p, rest)
              case Replayed(p) => Snapshot() == old(Snapshot()) && r == Again(p)
              case Refused(e) => Snapshot() == old(Snapshot()) && r == Denied(e)
    {
      hide OpenOldestFirst, FindKey;
      if req.amount <= 0 { return Denied(AmountInvalid); }
      var prior := FindKey(Snapshot(), actor, key, |payments|);
      if prior.Some? {
        if payments[prior.value].request != req { return Denied(KeyReused); }
        return Again(prior.value);
      }
      var explicit: map<nat, int> := map[];
      for k := 0 to |req.allocations|
        invariant explicit == Explicit(req.allocations[..k])
      {
        assert req.allocations[..k + 1][..k] == req.allocations[..k];
        explicit := explicit[req.allocations[k].0 := req.allocations[k].1];
      }
      assert req.allocations[..|req.allocations|] == req.allocations;
      var open := OpenOldestFirst(Snapshot(), req.person);
      if exists i :: i in explicit && i !in open { return Denied(InvoiceNotOpen); }
      var p := |payments|;
      payments := payments + [Payment(req.person, req.amount, false, None, actor, key, req)];
      var remaining := Allocate(open, p, req.amount, explicit, req.auto);
      return Accepted(p, remaining);
    }

    /** One link row, and the invoice's paid amount. */
    method BookLink(i: nat, p: nat, amount: int)
      requires i < |invoices|
      modifies this`invoices, this`links
      ensures Snapshot() == AddLink(old(Snapshot()), i, p, amount)
    {
      links := links + [Link(i, p, amount)];
      invoices := invoices[i := invoices[i].(paid := invoices[i].paid + amount)];
    }

    /** The allocation loop: books what is left of the receipt on the open items in turn. */
    method Allocate(open: seq<nat>, p: nat, amount: int, explicit: map<nat, int>, auto: bool) returns (remaining: int)
      requires forall k :: 0 <= k < |open| ==> open[k] < |invoices|
      modifies this`invoices, this`links
      ensures Booked(Snapshot(), remaining) == BookLoop(old(Snapshot()), open, p, amount, explicit, auto)
    {
      remaining := amount;
      ghost var goal := BookLoop(Snapshot(), open, p, amount, explicit, auto);
      var k := 0;
      assert open[0..] == open;
      while k < |open| && remaining > 0 && (explicit != map[] || auto)
        invariant k <= |open| && |invoices| == |old(invoices)|
        invariant BookLoop(Snapshot(), open[k..], p, remaining, explicit, auto) == goal
      {
        var i := open[k];
        assert open[k..][0] == i && open[k..][1..] == open[k + 1..];
        ghost var share := ShareOf(OpenAmount(Snapshot(), i), remaining, explicit, i);
        k := k + 1;
        if explicit != map[] && (i !in explicit || explicit[i] <= 0) { continue; }
        var pay := invoices[i].total - invoices[i].paid;
        if pay > remaining { pay := remaining; }
        if i in explicit && explicit[i] < pay { pay := explicit[i]; }
        assert pay == share;
        if pay <= 0 { continue; }
        BookLink(i, p, pay);
        remaining := remaining - pay;
      }
    }

    method PayInvoices(req: Request, actor: nat, key: Option<string>) returns (r: Reply)
      requires Ok()
      modifies this
      ensures Ok() && Snapshot() == Apply(old(Snapshot()), LedgerState.PayInvoices(old(Snapshot()), req, actor, KeyOf(key)))
      ensures match LedgerState.RecordPayment(old(Snapshot()), req, actor, KeyOf(key))
              case Paid(next, p, rest) => Snapshot() == next && r == Accepted(p, rest)
              case Replayed(p) => Snapshot() == old(Snapshot()) && r == Again(p)
              case Refused(e) => Snapshot() == old(Snapshot()) && r == Denied(e)
    {
      hide Valid, LedgerState.RecordPayment;
      PayKeepsValid(Snapshot(), req, actor, KeyOf(key));
      r := RecordPayment(req, actor, KeyOf(key));
    }

    /** Draws the person's free receipts down over the open invoices, by id. */
    method ApplyCredit(person: nat)
      requires Ok()
      modifies this
      ensures Ok() && Snapshot() == LedgerState.ApplyCredit(old(Snapshot()), person)
    {
      hide Valid, OpenById, CreditPayments;
      ApplyCreditKeepsValid(Snapshot(), person);
      var open := OpenById(Snapshot(), person, |invoices|);
      var ids := CreditPayments(Snapshot(), person, |payments|);
      OpenByIdComplete(Snapshot(), person, |invoices|);
      var amounts: seq<int> := [];
      for k := 0 to |open|
        invariant |amounts| == k && forall j :: 0 <= j < k ==> amounts[j] == OpenAmount(Snapshot(), open[j])
        invariant Snapshot() == old(Snapshot())
      {
        amounts := amounts + [invoices[open[k]].total - invoices[open[k]].paid];
      }
      Draw(open, amounts, ids);
    }

    method Draw(open: seq<nat>, amounts: seq<int>, ids: seq<nat>)
      requires Ascending(open) && |amounts| == |open|
      requires forall k :: 0 <= k < |open| ==> open[k] < |invoices| && amounts[k] == OpenAmount(Snapshot(), open[k])
      requires forall k :: 0 <= k < |ids| ==> ids[k] < |payments|
      modifies this`invoices, this`links
      ensures Snapshot() == DrawLoop(old(Snapshot()), open, ids)
    {
      hide DrawFor;
      ghost var goal := DrawLoop(Snapshot(), open, ids);
      assert open[0..] == open;
      for k := 0 to |open|
        invariant |invoices| == |old(invoices)|
        invariant forall j :: k <= j < |open| ==> amounts[j] == OpenAmount(Snapshot(), open[j])
        invariant DrawLoop(Snapshot(), open[k..], ids) == goal
      {
        assert open[k..][0] == open[k] && open[k..][1..] == open[k + 1..];
        DrawOn(open[k], amounts[k], ids);
      }
    }

    /** The inner loop: covers one invoice from the receipts in turn. */
    method DrawOn(i: nat, open: int, ids: seq<nat>)
      requires i < |invoices| && forall k :: 0 <= k < |ids| ==> ids[k] < |payments|
      modifies this`invoices, this`links
      ensures Snapshot() == DrawFor(old(Snapshot()), i, open, ids)
      ensures |invoices| == |old(invoices)| && forall j :: 0 <= j < |invoices| && j != i ==> invoices[j] == old(invoices)[j]
    {
      hide Used;
      ghost var goal := DrawFor(Snapshot(), i, open, ids);
      var left, k := open, 0;
      assert ids[0..] == ids;
      while k < |ids| && left > 0
        invariant k <= |ids| && |invoices| == |old(invoices)|
        invariant forall j :: 0 <= j < |invoices| && j != i ==> invoices[j] == old(invoices)[j]
        invariant DrawFor(Snapshot(), i, left, ids[k..]) == goal
      {
        var p := ids[k];
        assert ids[k..][0] == p && ids[k..][1..] == ids[k + 1..];
        var amount := Min(Free(Snapshot(), p), left);
        k := k + 1;
        if amount <= 0 { continue; }
        BookLink(i, p, amount);
        left := left - amount;
      }
    }

    /** The open extras of the covered vehicles, as allocations of receipt `p`, and their total. */
    method CollectExtras(person: nat, covered: set<nat>, p: nat) returns (extras: seq<Alloc>, total: int)
      ensures extras == ExtraAllocs(Snapshot(), person, covered, p, |charges|) && total == SumAllocs(extras)
    {
      hide IsOpenExtra, ChargeTotal;
      extras, total := [], 0;
      for n := 0 to |charges|
        invariant extras == ExtraAllocs(Snapshot(), person, covered, p, n) && total == SumAllocs(extras)
      {
        var c := charges[n];
        if IsOpenExtra(Snapshot(), person, covered, c) {
          ghost var before := extras;
          extras := extras + [Alloc(c.id, p, ChargeTotal(c.amount, c.quantity))];
          assert extras[..|extras| - 1] == before;
          total := total + ChargeTotal(c.amount, c.quantity);
        }
      }
    }

    /** Inserts each allocation and stamps its charge paid. */
    method StampExtras(extras: seq<Alloc>)
      modifies this`allocs, this`charges
      ensures allocs == old(allocs) + extras && Stamped(old(charges), charges, extras)
    {
      for k := 0 to |extras|
        invariant allocs == old(allocs) + extras[..k] && Stamped(old(charges), charges, extras[..k])
      {
        assert extras[..k + 1] == extras[..k] + [extras[k]];
        StampedMore(old(charges), charges, extras[..k], extras[k]);
        allocs := allocs + [extras[k]];
        charges := StampPaid(charges, extras[k].charge);
      }
      assert extras[..|extras|] == extras;
    }

    /** One receipt over all open extras of the covered vehicles, an allocation per charge. */
    method SettleExtras(person: nat, agreement: nat, covered: set<nat>, actor: nat)
      requires Ok()
      modifies this
      ensures Ok() && Snapshot() == LedgerState.SettleExtras(old(Snapshot()), person, agreement, covered, actor)
    {
      hide Valid, ExtraAllocs, SumAllocs, Stamped;
      ghost var db := Snapshot();
      SettleExtrasKeepsValid(db, person, agreement, covered, actor);
      var p := |payments|;
      var extras, total := CollectExtras(person, covered, p);
      if total <= 0 { return; }
      payments := payments + [Payment(person, total, false, Some(agreement), actor, NoKey, Request(person, total, false, []))];
      StampExtras(extras);
      StampedIsMarked(db, person, covered, p, charges);
    }

    // ---------- deposits ----------

    method CreateDeposit(person: nat, known: bool, kind: DepositKind, amount: int, actor: nat) returns (error: Option<Error>)
      requires Ok()
      modifies this
      ensures Ok() && Snapshot() == Apply(old(Snapshot()), LedgerState.CreateDeposit(old(Snapshot()), person, known, kind, amount, actor))
      ensures error == ErrorOf(LedgerState.CreateDeposit(old(Snapshot()), person, known, kind, amount, actor))
    {
      hide Valid, LedgerState.RecordPayment, Balance;
      CreateDepositKeepsValid(Snapshot(), person, known, kind, amount, actor);
      RecordingFrame(Snapshot(), Request(person, amount, true, []), actor, DepositKey(nextDeposit));
      if amount <= 0 { return Some(AmountInvalid); }
      if !known { return Some(PersonNotFound); }
      if !kind.Received? && amount > Balance(deposits, payments, person) { return Some(BalanceTooLow); }
      var receipt: Option<nat> := None;
      if kind.Withheld? {
        var r := RecordPayment(Request(person, amount, true, []), actor, DepositKey(nextDeposit));
        match r {
          case Denied(e) => return Some(e);
          case Accepted(p, _) => receipt := Some(p);
          case Again(p) => receipt := Some(p);
        }
      }
      deposits := deposits + [Deposit(nextDeposit, person, kind, amount, receipt)];
      nextDeposit := nextDeposit + 1;
      return None;
    }

    method DeleteDeposit(id: nat) returns (error: Option<Error>)
      requires Ok()
      modifies this
      ensures Ok() && Snapshot() == Apply(old(Snapshot()), LedgerState.DeleteDeposit(old(Snapshot()), id))
      ensures error == ErrorOf(LedgerState.DeleteDeposit(old(Snapshot()), id))
    {
      hide Valid, Balance, FindDeposit, DropDeposit;
      DeleteDepositKeepsValid(Snapshot(), id);
      var found := FindDeposit(deposits, id);
      if found.None? { return Some(NotFound); }
      var d := found.value;
      if d.payment.Some? { return Some(KeptAsReceipt); }
      if d.kind.Received? && Balance(deposits, payments, d.person) - d.amount < 0 { return Some(BalanceTooLow); }
      deposits := DropDeposit(deposits, id);
      return None;
    }

    // ---------- reversal ----------

    method ReversePayment(p: nat) returns (error: Option<Error>)
      requires Ok()
      modifies this
      ensures Ok() && Snapshot() == Apply(old(Snapshot()), LedgerState.ReversePayment(old(Snapshot()), p))
      ensures error == ErrorOf(LedgerState.ReversePayment(old(Snapshot()), p))
    {
      hide Valid, Reopen, DropAllocs, DropPayment, GiveBack, Unstamp;
      ReverseKeepsValid(Snapshot(), p);
      if p >= |payments| || payments[p].reversed { return Some(NotFound); }
      if payments[p].settles.Some? { return Some(PeriodManaged); }
      UnstampCharges(p);
      GiveBackLinks(p);
      payments := payments[p := payments[p].(reversed := true)];
      allocs := DropAllocs(allocs, p);
      links := DropPayment(links, p);
      bank := Reopen(bank, p);
      return None;
    }

    method UnstampCharges(p: nat)
      modifies this`charges
      ensures charges == Unstamp(old(Snapshot()), p, |old(charges)|)
    {
      hide AllocatedTo;
      ghost var db := Snapshot();
      var rows: seq<ChargeRow> := [];
      for n := 0 to |charges|
        invariant rows == Unstamp(db, p, n)
      {
        var c := charges[n];
        var open := AllocatedTo(allocs, p, c.id) && c.vehicle.None?
                    && !exists k :: 0 <= k < |allocs| && allocs[k].payment != p && allocs[k].charge == c.id;
        rows := rows + [if open then c.(paid := false) else c];
      }
      charges := rows;
    }

    method GiveBackLinks(p: nat)
      modifies this`invoices
      ensures invoices == GiveBack(old(invoices), links, p)
    {
      for k := 0 to |links|
        invariant invoices == GiveBack(old(invoices), links[..k], p)
      {
        var l := links[k];
        assert links[..k + 1][..k] == links[..k];
        if l.payment == p && l.invoice < |invoices| {
          invoices := invoices[l.invoice := invoices[l.invoice].(paid := Max(0, invoices[l.invoice].paid - l.amount))];
        }
      }
      assert links[..|links|] == links;
    }

    // ---------- bank transactions ----------

    method AssignBank(tx: nat, target: Target, actor: nat) returns (error: Option<Error>)
      requires Ok()
      modifies this
      ensures Ok() && Snapshot() == Apply(old(Snapshot()), LedgerState.AssignBank(old(Snapshot()), tx, target, actor))
      ensures error == ErrorOf(LedgerState.AssignBank(old(Snapshot()), tx, target, actor))
    {
      hide Valid, LedgerState.RecordPayment, Unresolved, OpenAmount;
      AssignBankKeepsValid(Snapshot(), tx, target, actor);
      if tx !in bank { return Some(NotFound); }
      var t := bank[tx];
      if !Unresolved(Snapshot(), t, Open) { return Some(NotOpen); }
      if !t.euro { return Some(NotEuro); }
      var person, allocations := 0, [];
      match target {
        case ToInvoice(i) =>
          if i >= |invoices| { return Some(NotFound); }
          if !Active(invoices[i]) || OpenAmount(Snapshot(), i) <= 0 { return Some(InvoiceNotOpen); }
          person, allocations := invoices[i].person, [(i, Min(t.amount, OpenAmount(Snapshot(), i)))];
        case ToPerson(q, known) =>
          if !known { return Some(PersonNotFound); }
          person := q;
      }
      RecordingFrame(Snapshot(), Request(person, t.amount, false, allocations), actor, BankKey(tx, t.payment));
      var r := RecordPayment(Request(person, t.amount, false, allocations), actor, BankKey(tx, t.payment));
      if r.Denied? { return Some(r.error); }
      if r.Again? && r.payment < |payments| && payments[r.payment].reversed { return Some(AlreadyReversed); }
      bank := bank[tx := t.(status := Assigned, payment := Some(r.payment), person := Some(person))];
      return None;
    }

    method SetIgnored(tx: nat, ignored: bool) returns (error: Option<Error>)
      requires Ok()
      modifies this
      ensures Ok() && Snapshot() == Apply(old(Snapshot()), LedgerState.SetIgnored(old(Snapshot()), tx, ignored))
      ensures error == ErrorOf(LedgerState.SetIgnored(old(Snapshot()), tx, ignored))
    {
      hide Valid, Unresolved;
      SetIgnoredKeepsValid(Snapshot(), tx, ignored);
      if tx !in bank { return Some(NotFound); }
      var t := bank[tx];
      if !Unresolved(Snapshot(), t, if ignored then Open else Ignored) { return Some(NotOpen); }
      bank := bank[tx := t.(status := if ignored then Ignored else Open, person := None)];
      return None;
    }

    method ImportBank(tx: nat, amount: int, euro: bool)
      requires Ok()
      modifies this
      ensures Ok() && Snapshot() == LedgerState.ImportBank(old(Snapshot()), tx, amount, euro)
    {
      hide Valid;
      ImportBankKeepsValid(Snapshot(), tx, amount, euro);
      if tx in bank { return; }
      bank := bank[tx := BankTx(amount, euro, Open, None, None)];
    }

    // ---------- one-off charges ----------

    method CreateCharge(person: nat, vehicle: Option<nat>, amount: int, quantity: int, on: nat) returns (id: nat)
      requires Ok()
      modifies this
      ensures Ok() && Snapshot() == LedgerState.CreateCharge(old(Snapshot()), person, vehicle, amount, quantity, on)
      ensures id == old(nextCharge)
    {
      hide Valid;
      CreateChargeKeepsValid(Snapshot(), person, vehicle, amount, quantity, on);
      id := nextCharge;
      charges := charges + [ChargeRow(id, person, vehicle, false, amount, quantity, on)];
      nextCharge := nextCharge + 1;
    }

    method UpdateCharge(id: nat, person: nat, vehicle: Option<nat>, amount: int, quantity: int, on: nat)
      returns (error: Option<Error>)
      requires Ok()
      modifies this
      ensures Ok() && Snapshot() == Apply(old(Snapshot()), LedgerState.UpdateCharge(old(Snapshot()), id, person, vehicle, amount, quantity, on))
      ensures error == ErrorOf(LedgerState.UpdateCharge(old(Snapshot()), id, person, vehicle, amount, quantity, on))
    {
      hide Valid, FindCharge, FinanciallyLocked;
      UpdateChargeKeepsValid(Snapshot(), id, person, vehicle, amount, quantity, on);
      var k := FindCharge(charges, id, |charges|);
      if k.None? { return Some(NotFound); }
      var c := charges[k.value];
      if c.person != person || c.vehicle != vehicle || c.amount != amount || c.quantity != quantity {
        if FinanciallyLocked(Snapshot(), id) { return Some(Invoiced); }
      }
      charges := charges[k.value := ChargeRow(id, person, vehicle, if c.vehicle != vehicle then false else c.paid, amount, quantity, on)];
      return None;
    }

    method DeleteCharge(id: nat) returns (error: Option<Error>)
      requires Ok()
      modifies this
      ensures Ok() && Snapshot() == Apply(old(Snapshot()), LedgerState.DeleteCharge(old(Snapshot()), id))
      ensures error == ErrorOf(LedgerState.DeleteCharge(old(Snapshot()), id))
    {
      hide Valid, FindCharge, FinanciallyLocked;
      DeleteChargeKeepsValid(Snapshot(), id);
      var k := FindCharge(charges, id, |charges|);
      if k.None? { return Some(NotFound); }
      if FinanciallyLocked(Snapshot(), id) { return Some(Invoiced); }
      charges := charges[..k.value] + charges[k.value + 1..];
      return None;
    }
  }

  // ---------- helpers of the loops ----------

  /** UPDATE charges SET paid = true WHERE id = ... */
  function StampPaid(charges: seq<ChargeRow>, id: nat): (r: seq<ChargeRow>)
    ensures |r| == |charges|
    ensures forall k :: 0 <= k < |r| ==> r[k] == charges[k].(paid := charges[k].paid || charges[k].id == id)
  {
    seq(|charges|, k requires 0 <= k < |charges| =>
      if charges[k].id == id then charges[k].(paid := true) else charges[k])
  }

  predicate Stamped(before: seq<ChargeRow>, after: seq<ChargeRow>, allocs: seq<Alloc>) {
    |after| == |before| && forall k :: 0 <= k < |before| ==>
      after[k] == before[k].(paid := before[k].paid || ChargeHasAlloc(allocs, before[k].id))
  }

  lemma StampedMore(before: seq<ChargeRow>, after: seq<ChargeRow>, allocs: seq<Alloc>, a: Alloc)
    requires Stamped(before, after, allocs)
    ensures Stamped(before, StampPaid(after, a.charge), allocs + [a])
  {
    forall k | 0 <= k < |before|
      ensures ChargeHasAlloc(allocs + [a], before[k].id) <==> ChargeHasAlloc(allocs, before[k].id) || before[k].id == a.charge
    {
      if ChargeHasAlloc(allocs, before[k].id) {
        var j :| 0 <= j < |allocs| && allocs[j].charge == before[k].id;
        assert (allocs + [a])[j].charge == before[k].id;
      }
      if before[k].id == a.charge { assert (allocs + [a])[|allocs|].charge == before[k].id; }
    }
    hide ChargeHasAlloc;
  }

  lemma StampedIsMarked(db: Db, person: nat, covered: set<nat>, p: nat, charges: seq<ChargeRow>)
    requires Valid(db) && Stamped(db.charges, charges, ExtraAllocs(db, person, covered, p, |db.charges|))
    ensures charges == MarkExtras(db, person, covered, |db.charges|)
  {
    ValidChargeIds(db);
    ExtrasAreTheOpenOnes(db, person, covered, p, |db.charges|);
    hide Valid, ExtraAllocs, ChargeHasAlloc, IsOpenExtra;
  }

  lemma ValidChargeIds(db: Db)
    requires Valid(db)
    ensures ChargeIdsOk(db)
  {
  }

  /** A charge is among the extras exactly if it was an open one. */
  lemma {:induction false} ExtrasAreTheOpenOnes(db: Db, person: nat, covered: set<nat>, p: nat, n: nat)
    requires n <= |db.charges| && ChargeIdsOk(db)
    ensures forall m :: 0 <= m < n ==>
      (ChargeHasAlloc(ExtraAllocs(db, person, covered, p, n), db.charges[m].id) <==> IsOpenExtra(db, person, covered, db.charges[m]))
  {
    hide IsOpenExtra, ChargeTotal;
    if n > 0 {
      ExtrasAreTheOpenOnes(db, person, covered, p, n - 1);
      ExtraAllocsRows(db, person, covered, p, n - 1);
      hide ExtraRow;
      var before, c := ExtraAllocs(db, person, covered, p, n - 1), db.charges[n - 1];
      forall k | 0 <= k < |before| ensures before[k].charge != c.id { assert before[k] in before; }
      var after := ExtraAllocs(db, person, covered, p, n);
      forall m | 0 <= m < n - 1 ensures ChargeHasAlloc(after, db.charges[m].id) <==> ChargeHasAlloc(before, db.charges[m].id) {
        if ChargeHasAlloc(before, db.charges[m].id) {
          var k :| 0 <= k < |before| && before[k].charge == db.charges[m].id;
          assert after[k] == before[k];
        }
      }
      if IsOpenExtra(db, person, covered, c) { assert after[|before|].charge == c.id; }
    }
  }

  /** Booking a receipt touches neither deposits nor bank transactions. */
  lemma RecordingFrame(db: Db, req: Request, actor: nat, key: PaymentKey)
    requires Valid(db)
    ensures var r := LedgerState.RecordPayment(db, req, actor, key);
      && (r.Paid? ==> r.db.deposits == db.deposits && r.db.nextDeposit == db.nextDeposit && r.db.bank == db.bank)
      && (r.Replayed? ==> r.payment < |db.payments|)
  {
    RecordPaymentBooks(db, req, actor, key);
    ReplayHasKey(db, req, actor, key);
    hide LedgerState.RecordPayment, MoneyOk, ClaimsOk, ReceiptsOk;
  }
}
