/**
 The rows of the billing tables and what each committed transaction does to them. Every
 transaction here is one function on the whole state; on an error the state is returned
 unchanged, which is what rolling back does. Amounts are integer cents.
 */
module LedgerState {
  import opened PeriodKeys
  import opened Accrual
  import opened OwedLines
  import opened InvoiceLines

  // ---------- rows ----------

  /** A document; a Storno document points at the one it cancels. Its id is its index. */
  datatype Invoice = Invoice(
    person: nat, no: nat, number: string, issued: nat, total: int, paid: int,
    canceled: bool, cancels: Option<nat>, lines: seq<OwedItem>)

  datatype PaymentKey =
    | NoKey
    | ClientKey(text: string)
    | DepositKey(deposit: nat)
    | BankKey(tx: nat, after: Option<nat>)

  datatype Request = Request(person: nat, amount: int, auto: bool, allocations: seq<(nat, int)>)

  /** `settles` marks a receipt booked for one agreement's extras. Its id is its index. */
  datatype Payment = Payment(
    person: nat, amount: int, reversed: bool, settles: Option<nat>, actor: nat, key: PaymentKey, request: Request)

  datatype Link = Link(invoice: nat, payment: nat, amount: int)

  datatype Alloc = Alloc(charge: nat, payment: nat, amount: int)

  datatype ChargeRow = ChargeRow(
    id: nat, person: nat, vehicle: Option<nat>, paid: bool, amount: int, quantity: int, on: nat)

  datatype DepositKind = Received | Withheld | Refunded

  datatype Deposit = Deposit(id: nat, person: nat, kind: DepositKind, amount: int, payment: Option<nat>)

  datatype BankStatus = Open | Assigned | Ignored

  datatype BankTx = BankTx(amount: int, euro: bool, status: BankStatus, payment: Option<nat>, person: Option<nat>)

  datatype Db = Db(
    nextNo: nat, prefix: string, pad: nat,
    invoices: seq<Invoice>,
    payments: seq<Payment>,
    links: seq<Link>,
    allocs: seq<Alloc>,
    sources: map<Position, nat>,
    charges: seq<ChargeRow>, nextCharge: nat,
    deposits: seq<Deposit>, nextDeposit: nat,
    bank: map<nat, BankTx>)

  datatype Error =
    | PersonNotFound | NoOpenItems | NotCompliant | AlreadyBilled | ChargeClaimed | NumberTaken
    | NotFound | AlreadyCanceled | IsStorno | InvoiceNotOpen | KeyReused | AmountInvalid
    | BalanceTooLow | KeptAsReceipt | PeriodManaged | NotOpen | NotEuro | AlreadyReversed | Invoiced

  /** A transaction's outcome: the new state, or the error it rolled back with. */
  datatype Outcome = Committed(db: Db) | RolledBack(error: Error)

  function Apply(db: Db, o: Outcome): Db {
    match o
    case Committed(next) => next
    case RolledBack(_) => db
  }

  predicate Active(inv: Invoice) {
    !inv.canceled && inv.cancels.None?
  }

  // ---------- sums over link rows ----------

  function Linked(links: seq<Link>, i: nat): int {
    if links == [] then 0
    else var l := links[|links| - 1];
      Linked(links[..|links| - 1], i) + (if l.invoice == i then l.amount else 0)
  }

  function UsedByLinks(links: seq<Link>, p: nat): int {
    if links == [] then 0
    else var l := links[|links| - 1];
      UsedByLinks(links[..|links| - 1], p) + (if l.payment == p then l.amount else 0)
  }

  function LinkedVia(links: seq<Link>, i: nat, p: nat): int {
    if links == [] then 0
    else var l := links[|links| - 1];
      LinkedVia(links[..|links| - 1], i, p) + (if l.invoice == i && l.payment == p then l.amount else 0)
  }

  function UsedByAllocs(allocs: seq<Alloc>, p: nat): int {
    if allocs == [] then 0
    else var a := allocs[|allocs| - 1];
      UsedByAllocs(allocs[..|allocs| - 1], p) + (if a.payment == p then a.amount else 0)
  }

  /** What is spent of a receipt, by invoice links and by charge allocations. */
  function Used(db: Db, p: nat): int {
    UsedByLinks(db.links, p) + UsedByAllocs(db.allocs, p)
  }

  function Free(db: Db, p: nat): int
    requires p < |db.payments|
  {
    db.payments[p].amount - Used(db, p)
  }

  function OpenAmount(db: Db, i: nat): int
    requires i < |db.invoices|
  {
    db.invoices[i].total - db.invoices[i].paid
  }

  // ---------- issuing ----------

  function LockedPositions(db: Db, person: nat): set<Position> {
    set p | p in db.sources && db.sources[p] < |db.invoices|
            && db.invoices[db.sources[p]].person == person && !db.invoices[db.sources[p]].canceled
  }

  predicate ChargeHasAlloc(allocs: seq<Alloc>, charge: nat) {
    exists k :: 0 <= k < |allocs| && allocs[k].charge == charge
  }

  predicate Claimed(db: Db, charge: nat) {
    ChargeHasAlloc(db.allocs, charge)
  }

  function ChargesOf(db: Db, person: nat, n: nat): seq<Charge>
    requires n <= |db.charges|
  {
    if n == 0 then []
    else
      var c := db.charges[n - 1];
      ChargesOf(db, person, n - 1) + (if c.person == person then [ChargeOf(db, c)] else [])
  }

  function ChargeOf(db: Db, c: ChargeRow): Charge {
    Charge(c.id, c.vehicle.Some?, c.paid, Claimed(db, c.id), c.amount, c.quantity, c.on)
  }

  datatype AccountRows = AccountRows(vehicles: seq<Vehicle>, agreements: seq<Source>, recurring: seq<Source>)

  /** The person's periodic accruals at the moment of invoicing: rows of three tables, each with unique ids. */
  type Accounts = a: AccountRows |
    && (forall i, j :: 0 <= i < j < |a.vehicles| ==> a.vehicles[i].id != a.vehicles[j].id)
    && DistinctSources(a.agreements, Agreement)
    && DistinctSources(a.recurring, Recurring)
    witness AccountRows([], [], [])

  function BillableOf(db: Db, person: nat, acc: Accounts): Billable {
    Billable(acc.vehicles, acc.agreements, acc.recurring, ChargesOf(db, person, |db.charges|))
  }

  function OpenLines(db: Db, person: nat, acc: Accounts, asOf: nat): seq<OwedItem> {
    AllLines(BillableOf(db, person, acc), asOf, LockedPositions(db, person))
  }

  /** Invoice particulars that must be present; the buyer's address only above 400 euros. */
  datatype Particulars = Particulars(seller: bool, buyerName: bool, buyerAddress: bool)

  predicate Compliant(p: Particulars, gross: int) {
    p.seller && p.buyerName && (gross > 40000 ==> p.buyerAddress)
  }

  function Gross(subtotal: int, rate: nat): int {
    subtotal + RoundDiv(subtotal * rate, 100)
  }

  function NumberText(db: Db): string {
    db.prefix + Padded(db.nextNo, db.pad)
  }

  predicate NumberIsTaken(db: Db, text: string) {
    exists k :: 0 <= k < |db.invoices| && db.invoices[k].number == text
  }

  function LockLines(sources: map<Position, nat>, lines: seq<OwedItem>, id: nat): map<Position, nat> {
    if lines == [] then sources
    else LockLines(sources, lines[..|lines| - 1], id)[lines[|lines| - 1].position := id]
  }

  datatype Locking = Locks(sources: map<Position, nat>) | Conflict(error: Error)

  /** One lock row per line: a position has at most one row, and a charge a receipt covers gets none. */
  function LockNext(locks: Locking, allocs: seq<Alloc>, p: Position, id: nat): Locking {
    match locks
    case Conflict(_) => locks
    case Locks(sources) =>
      if p in sources then Conflict(AlreadyBilled)
      else if p.kind.OneOffCharge? && ChargeHasAlloc(allocs, p.ref) then Conflict(ChargeClaimed)
      else Locks(sources[p := id])
  }

  function LockAll(sources: map<Position, nat>, allocs: seq<Alloc>, lines: seq<OwedItem>, id: nat): Locking {
    if lines == [] then Locks(sources)
    else LockNext(LockAll(sources, allocs, lines[..|lines| - 1], id), allocs, lines[|lines| - 1].position, id)
  }

  function CreateInvoice(
    db: Db, person: nat, known: bool, acc: Accounts, rate: nat, parts: Particulars, asOf: nat): Outcome
  {
    var lines := OpenLines(db, person, acc, asOf);
    var total := Gross(SumLines(lines), rate);
    if !known then RolledBack(PersonNotFound)
    else if lines == [] then RolledBack(NoOpenItems)
    else if !Compliant(parts, total) then RolledBack(NotCompliant)
    else if NumberIsTaken(db, NumberText(db)) then RolledBack(NumberTaken)
    else
      match LockAll(db.sources, db.allocs, lines, |db.invoices|)
      case Conflict(e) => RolledBack(e)
      case Locks(sources) =>
        var inv := Invoice(person, db.nextNo, NumberText(db), asOf, total, 0, false, None, lines);
        Committed(db.(nextNo := db.nextNo + 1, invoices := db.invoices + [inv], sources := sources))
  }

  function DropInvoice(links: seq<Link>, i: nat): seq<Link> {
    if links == [] then []
    else var l := links[|links| - 1];
      DropInvoice(links[..|links| - 1], i) + (if l.invoice == i then [] else [l])
  }

  function DropPayment(links: seq<Link>, p: nat): seq<Link> {
    if links == [] then []
    else var l := links[|links| - 1];
      DropPayment(links[..|links| - 1], p) + (if l.payment == p then [] else [l])
  }

  function DropAllocs(allocs: seq<Alloc>, p: nat): seq<Alloc> {
    if allocs == [] then []
    else var a := allocs[|allocs| - 1];
      DropAllocs(allocs[..|allocs| - 1], p) + (if a.payment == p then [] else [a])
  }

  /** The counter-document's lines: the original's with negated amounts. */
  function Negated(lines: seq<OwedItem>): seq<OwedItem> {
    seq(|lines|, k requires 0 <= k < |lines| => lines[k].(amount := -lines[k].amount))
  }

  function CancelInvoice(db: Db, id: nat, asOf: nat): Outcome {
    if id >= |db.invoices| then RolledBack(NotFound)
    else
      var o := db.invoices[id];
      if o.canceled then RolledBack(AlreadyCanceled)
      else if o.cancels.Some? then RolledBack(IsStorno)
      else if NumberIsTaken(db, NumberText(db)) then RolledBack(NumberTaken)
      else
        var storno := Invoice(o.person, db.nextNo, NumberText(db), asOf, -o.total, 0, false, Some(id), Negated(o.lines));
        Committed(db.(
          nextNo := db.nextNo + 1,
          invoices := db.invoices[id := o.(canceled := true, paid := 0)] + [storno],
          sources := map p | p in db.sources && db.sources[p] != id :: db.sources[p],
          links := DropInvoice(db.links, id)))
  }

  /** The number only moves forward. */
  function SaveSettings(db: Db, next: int, prefix: string, pad: int): Db {
    var wanted := if next < 1 then 1 else next;
    db.(nextNo := if wanted < db.nextNo then db.nextNo else wanted,
        prefix := prefix, pad := if pad < 1 || pad > 10 then 4 else pad)
  }

  // ---------- payments ----------

  /** Books `amount` of a receipt on an invoice: one link row, and the invoice's paid amount. */
  function AddLink(db: Db, i: nat, p: nat, amount: int): Db
    requires i < |db.invoices|
  {
    db.(links := db.links + [Link(i, p, amount)],
        invoices := db.invoices[i := db.invoices[i].(paid := db.invoices[i].paid + amount)])
  }

  predicate IsOpenItem(db: Db, person: nat, i: nat)
    requires i < |db.invoices|
  {
    db.invoices[i].person == person && Active(db.invoices[i]) && OpenAmount(db, i) > 0
  }

  /** The person's open items, by id. */
  function OpenById(db: Db, person: nat, n: nat): (r: seq<nat>)
    requires n <= |db.invoices|
    ensures forall k :: 0 <= k < |r| ==> r[k] < n && IsOpenItem(db, person, r[k])
  {
    if n == 0 then []
    else OpenById(db, person, n - 1) + (if IsOpenItem(db, person, n - 1) then [n - 1] else [])
  }

  /** Inserts an id behind every id issued no later, keeping the order by issue day, then id. */
  function InsertByIssue(db: Db, ids: seq<nat>, i: nat): (r: seq<nat>)
    requires i < |db.invoices| && forall k :: 0 <= k < |ids| ==> ids[k] < |db.invoices|
    ensures forall k :: 0 <= k < |r| ==> r[k] < |db.invoices|
  {
    if ids == [] then [i]
    else
      var last := ids[|ids| - 1];
      if db.invoices[last].issued <= db.invoices[i].issued then ids + [i]
      else InsertByIssue(db, ids[..|ids| - 1], i) + [last]
  }

  function SortByIssue(db: Db, ids: seq<nat>): (r: seq<nat>)
    requires forall k :: 0 <= k < |ids| ==> ids[k] < |db.invoices|
    ensures forall k :: 0 <= k < |r| ==> r[k] < |db.invoices|
  {
    if ids == [] then []
    else
      InsertByIssue(db, SortByIssue(db, ids[..|ids| - 1]), ids[|ids| - 1])
  }

  /** The person's open items, oldest first. */
  function OpenOldestFirst(db: Db, person: nat): (r: seq<nat>)
    ensures forall k :: 0 <= k < |r| ==> r[k] < |db.invoices|
  {
    SortByIssue(db, OpenById(db, person, |db.invoices|))
  }

  function Explicit(allocations: seq<(nat, int)>): map<nat, int> {
    if allocations == [] then map[]
    else Explicit(allocations[..|allocations| - 1])[allocations[|allocations| - 1].0 := allocations[|allocations| - 1].1]
  }

  /** What the allocation loop books on one open item; 0 means it books nothing. */
  function ShareOf(open: int, remaining: int, explicit: map<nat, int>, i: nat): int {
    if explicit != map[] && (i !in explicit || explicit[i] <= 0) then 0
    else
      var pay := if open > remaining then remaining else open;
      if i in explicit && explicit[i] < pay then explicit[i] else pay
  }

  datatype Booked = Booked(db: Db, remaining: int)

  /** The allocation loop over the open items `ids`, in order. */
  function BookLoop(db: Db, ids: seq<nat>, p: nat, remaining: int, explicit: map<nat, int>, auto: bool): Booked
    requires forall k :: 0 <= k < |ids| ==> ids[k] < |db.invoices|
    decreases |ids|
  {
    if ids == [] || remaining <= 0 || (explicit == map[] && !auto) then Booked(db, remaining)
    else
      var share := ShareOf(OpenAmount(db, ids[0]), remaining, explicit, ids[0]);
      if share <= 0 then BookLoop(db, ids[1..], p, remaining, explicit, auto)
      else BookLoop(AddLink(db, ids[0], p, share), ids[1..], p, remaining - share, explicit, auto)
  }

  /** The receipt an actor already booked under an idempotency key. */
  function FindKey(db: Db, actor: nat, key: PaymentKey, n: nat): (r: Option<nat>)
    requires n <= |db.payments|
    ensures r.Some? ==> r.value < n && db.payments[r.value].actor == actor && db.payments[r.value].key == key != NoKey
    ensures r.None? && key != NoKey ==>
      forall k :: 0 <= k < n ==> db.payments[k].actor != actor || db.payments[k].key != key
  {
    if n == 0 || key == NoKey then None
    else if db.payments[n - 1].actor == actor && db.payments[n - 1].key == key then Some(n - 1)
    else FindKey(db, actor, key, n - 1)
  }

  datatype PayOutcome = Paid(db: Db, payment: nat, unallocated: int) | Replayed(payment: nat) | Refused(error: Error)

  function RecordPayment(db: Db, req: Request, actor: nat, key: PaymentKey): PayOutcome {
    var prior := FindKey(db, actor, key, |db.payments|);
    var open := OpenOldestFirst(db, req.person);
    var explicit := Explicit(req.allocations);
    if req.amount <= 0 then Refused(AmountInvalid)
    else if prior.Some? then
      if db.payments[prior.value].request == req then Replayed(prior.value) else Refused(KeyReused)
    else if exists i :: i in explicit && i !in open then Refused(InvoiceNotOpen)
    else
      var p := |db.payments|;
      var booked := BookLoop(AddPayment(db, Payment(req.person, req.amount, false, None, actor, key, req)),
                             open, p, req.amount, explicit, req.auto);
      Paid(booked.db, p, booked.remaining)
  }

  function AddPayment(db: Db, p: Payment): Db {
    db.(payments := db.payments + [p])
  }

  function PayInvoices(db: Db, req: Request, actor: nat, key: PaymentKey): Outcome {
    match RecordPayment(db, req, actor, key)
    case Paid(next, _, _) => Committed(next)
    case Replayed(_) => Committed(db)
    case Refused(e) => RolledBack(e)
  }

  // ---------- drawing down credit ----------

  predicate IsCredit(db: Db, person: nat, p: nat)
    requires p < |db.payments|
  {
    var pay := db.payments[p];
    pay.person == person && !pay.reversed && pay.settles.None? && Free(db, p) > 0
  }

  /** The person's receipts with money left, by id. Receipts booked for a period are never credit. */
  function CreditPayments(db: Db, person: nat, n: nat): (r: seq<nat>)
    requires n <= |db.payments|
    ensures forall k :: 0 <= k < |r| ==> r[k] < n && IsCredit(db, person, r[k])
  {
    if n == 0 then []
    else CreditPayments(db, person, n - 1) + (if IsCredit(db, person, n - 1) then [n - 1] else [])
  }

  /** Covers one invoice's open amount from the receipts in order. */
  function DrawFor(db: Db, i: nat, open: int, ids: seq<nat>): Db
    requires i < |db.invoices| && forall k :: 0 <= k < |ids| ==> ids[k] < |db.payments|
    decreases |ids|
  {
    if ids == [] || open <= 0 then db
    else
      var amount := Min(Free(db, ids[0]), open);
      if amount <= 0 then DrawFor(db, i, open, ids[1..])
      else DrawFor(AddLink(db, i, ids[0], amount), i, open - amount, ids[1..])
  }

  function DrawLoop(db: Db, open: seq<nat>, ids: seq<nat>): Db
    requires forall k :: 0 <= k < |open| ==> open[k] < |db.invoices|
    requires forall k :: 0 <= k < |ids| ==> ids[k] < |db.payments|
    decreases |open|
  {
    if open == [] then db
    else
      var next := DrawFor(db, open[0], OpenAmount(db, open[0]), ids);
      DrawForShape(db, open[0], OpenAmount(db, open[0]), ids);
      DrawLoop(next, open[1..], ids)
  }

  /** Drawing down credit adds no row but links. */
  lemma {:induction false} DrawForShape(db: Db, i: nat, open: int, ids: seq<nat>)
    requires i < |db.invoices| && forall k :: 0 <= k < |ids| ==> ids[k] < |db.payments|
    ensures var next := DrawFor(db, i, open, ids);
      |next.invoices| == |db.invoices| && next.payments == db.payments
    decreases |ids|
  {
    if ids != [] && open > 0 {
      var amount := Min(Free(db, ids[0]), open);
      if amount <= 0 { DrawForShape(db, i, open, ids[1..]); }
      else { DrawForShape(AddLink(db, i, ids[0], amount), i, open - amount, ids[1..]); }
    }
  }

  function ApplyCredit(db: Db, person: nat): Db {
    DrawLoop(db, OpenById(db, person, |db.invoices|), CreditPayments(db, person, |db.payments|))
  }

  // ---------- extras of an agreement ----------

  predicate IsOpenExtra(db: Db, person: nat, covered: set<nat>, c: ChargeRow) {
    && c.person == person && c.vehicle.Some? && c.vehicle.value in covered && !c.paid
    && !Claimed(db, c.id) && Position(OneOffCharge, c.id, "") !in db.sources
    && ChargeTotal(c.amount, c.quantity) > 0
  }

  function ExtraAllocs(db: Db, person: nat, covered: set<nat>, p: nat, n: nat): seq<Alloc>
    requires n <= |db.charges|
  {
    if n == 0 then []
    else
      var c := db.charges[n - 1];
      ExtraAllocs(db, person, covered, p, n - 1)
      + (if IsOpenExtra(db, person, covered, c) then [Alloc(c.id, p, ChargeTotal(c.amount, c.quantity))] else [])
  }

  function MarkExtras(db: Db, person: nat, covered: set<nat>, n: nat): (r: seq<ChargeRow>)
    requires n <= |db.charges|
    ensures |r| == n
    ensures forall k :: 0 <= k < n ==> r[k] == db.charges[k].(paid := db.charges[k].paid || IsOpenExtra(db, person, covered, db.charges[k]))
  {
    if n == 0 then []
    else
      var c := db.charges[n - 1];
      MarkExtras(db, person, covered, n - 1)
      + [c.(paid := c.paid || IsOpenExtra(db, person, covered, c))]
  }

  function SumAllocs(allocs: seq<Alloc>): int {
    if allocs == [] then 0 else SumAllocs(allocs[..|allocs| - 1]) + allocs[|allocs| - 1].amount
  }

  /** One receipt over all extras open on the covered vehicles, an allocation per charge. */
  function SettleExtras(db: Db, person: nat, agreement: nat, covered: set<nat>, actor: nat): Db {
    var p := |db.payments|;
    var allocs := ExtraAllocs(db, person, covered, p, |db.charges|);
    var total := SumAllocs(allocs);
    if total <= 0 then db
    else
      db.(payments := db.payments
            + [Payment(person, total, false, Some(agreement), actor, NoKey, Request(person, total, false, []))],
          allocs := db.allocs + allocs,
          charges := MarkExtras(db, person, covered, |db.charges|))
  }

  // ---------- deposits ----------

  function Signed(d: Deposit): int {
    if d.kind.Received? then d.amount else -d.amount
  }

  predicate Counts(d: Deposit, payments: seq<Payment>) {
    !(d.payment.Some? && d.payment.value < |payments| && payments[d.payment.value].reversed)
  }

  /** Received less withheld less refunded; a withheld deposit whose payment was reversed does not count. */
  function Balance(deposits: seq<Deposit>, payments: seq<Payment>, person: nat): int {
    if deposits == [] then 0
    else
      var d := deposits[|deposits| - 1];
      Balance(deposits[..|deposits| - 1], payments, person)
      + (if d.person == person && Counts(d, payments) then Signed(d) else 0)
  }

  function AddDeposit(db: Db, d: Deposit): Db {
    db.(deposits := db.deposits + [d], nextDeposit := db.nextDeposit + 1)
  }

  function CreateDeposit(db: Db, person: nat, known: bool, kind: DepositKind, amount: int, actor: nat): Outcome {
    if amount <= 0 then RolledBack(AmountInvalid)
    else if !known then RolledBack(PersonNotFound)
    else if !kind.Received? && amount > Balance(db.deposits, db.payments, person) then RolledBack(BalanceTooLow)
    else if kind.Withheld? then
      match RecordPayment(db, Request(person, amount, true, []), actor, DepositKey(db.nextDeposit))
      case Refused(e) => RolledBack(e)
      case Paid(next, p, _) => Committed(AddDeposit(next, Deposit(db.nextDeposit, person, kind, amount, Some(p))))
      case Replayed(p) => Committed(AddDeposit(db, Deposit(db.nextDeposit, person, kind, amount, Some(p))))
    else Committed(AddDeposit(db, Deposit(db.nextDeposit, person, kind, amount, None)))
  }

  function FindDeposit(deposits: seq<Deposit>, id: nat): Option<Deposit> {
    if deposits == [] then None
    else if deposits[|deposits| - 1].id == id then Some(deposits[|deposits| - 1])
    else FindDeposit(deposits[..|deposits| - 1], id)
  }

  function DropDeposit(deposits: seq<Deposit>, id: nat): seq<Deposit> {
    if deposits == [] then []
    else var d := deposits[|deposits| - 1];
      DropDeposit(deposits[..|deposits| - 1], id) + (if d.id == id then [] else [d])
  }

  function DeleteDeposit(db: Db, id: nat): Outcome {
    match FindDeposit(db.deposits, id)
    case None => RolledBack(NotFound)
    case Some(d) =>
      if d.payment.Some? then RolledBack(KeptAsReceipt)
      else if d.kind.Received? && Balance(db.deposits, db.payments, d.person) - d.amount < 0 then RolledBack(BalanceTooLow)
      else Committed(db.(deposits := DropDeposit(db.deposits, id)))
  }

  // ---------- reversing a receipt ----------

  /** Takes a receipt's links back from the invoices they paid, one link at a time. */
  function GiveBack(invoices: seq<Invoice>, links: seq<Link>, p: nat): (r: seq<Invoice>)
    ensures |r| == |invoices|
  {
    if links == [] then invoices
    else
      var r := GiveBack(invoices, links[..|links| - 1], p);
      var l := links[|links| - 1];
      if l.payment == p && l.invoice < |r|
      then r[l.invoice := r[l.invoice].(paid := Max(0, r[l.invoice].paid - l.amount))]
      else r
  }

  predicate AllocatedTo(allocs: seq<Alloc>, p: nat, charge: nat) {
    exists k :: 0 <= k < |allocs| && allocs[k].payment == p && allocs[k].charge == charge
  }

  /** Standalone charges the receipt stamped are open again, unless another allocation covers them. */
  function Unstamp(db: Db, p: nat, n: nat): (r: seq<ChargeRow>)
    requires n <= |db.charges|
    ensures |r| == n
    ensures forall k :: 0 <= k < n ==> r[k] == db.charges[k].(paid := r[k].paid)
  {
    if n == 0 then []
    else
      var c := db.charges[n - 1];
      var open := AllocatedTo(db.allocs, p, c.id) && c.vehicle.None?
                  && !exists k :: 0 <= k < |db.allocs| && db.allocs[k].payment != p && db.allocs[k].charge == c.id;
      Unstamp(db, p, n - 1) + [if open then c.(paid := false) else c]
  }

  function Reopen(bank: map<nat, BankTx>, p: nat): map<nat, BankTx> {
    map t | t in bank ::
      if bank[t].status.Assigned? && bank[t].payment == Some(p) then bank[t].(status := Open, person := None) else bank[t]
  }

  function ReversePayment(db: Db, p: nat): Outcome {
    if p >= |db.payments| || db.payments[p].reversed then RolledBack(NotFound)
    else if db.payments[p].settles.Some? then RolledBack(PeriodManaged)
    else
      Committed(db.(
        payments := db.payments[p := db.payments[p].(reversed := true)],
        invoices := GiveBack(db.invoices, db.links, p),
        links := DropPayment(db.links, p),
        allocs := DropAllocs(db.allocs, p),
        charges := Unstamp(db, p, |db.charges|),
        bank := Reopen(db.bank, p)))
  }

  // ---------- bank transactions ----------

  predicate PaymentReversed(db: Db, t: BankTx) {
    t.payment.Some? && t.payment.value < |db.payments| && db.payments[t.payment.value].reversed
  }

  function EffectiveStatus(db: Db, t: BankTx): BankStatus {
    if t.status.Assigned? && PaymentReversed(db, t) then Open else t.status
  }

  predicate Unresolved(db: Db, t: BankTx, from: BankStatus) {
    EffectiveStatus(db, t) == from && (t.payment.None? || PaymentReversed(db, t))
  }

  datatype Target = ToInvoice(invoice: nat) | ToPerson(person: nat, known: bool)

  function AssignBank(db: Db, tx: nat, target: Target, actor: nat): Outcome {
    if tx !in db.bank then RolledBack(NotFound)
    else
      var t := db.bank[tx];
      if !Unresolved(db, t, Open) then RolledBack(NotOpen)
      else if !t.euro then RolledBack(NotEuro)
      else if target.ToInvoice? && target.invoice >= |db.invoices| then RolledBack(NotFound)
      else if target.ToInvoice? && (!Active(db.invoices[target.invoice]) || OpenAmount(db, target.invoice) <= 0)
        then RolledBack(InvoiceNotOpen)
      else if target.ToPerson? && !target.known then RolledBack(PersonNotFound)
      else
        var person := if target.ToInvoice? then db.invoices[target.invoice].person else target.person;
        var allocations := if target.ToInvoice?
          then [(target.invoice, Min(t.amount, OpenAmount(db, target.invoice)))] else [];
        match RecordPayment(db, Request(person, t.amount, false, allocations), actor, BankKey(tx, t.payment))
        case Refused(e) => RolledBack(e)
        case Replayed(p) =>
          if p < |db.payments| && db.payments[p].reversed then RolledBack(AlreadyReversed)
          else Committed(db.(bank := db.bank[tx := t.(status := Assigned, payment := Some(p), person := Some(person))]))
        case Paid(next, p, _) =>
          Committed(next.(bank := db.bank[tx := t.(status := Assigned, payment := Some(p), person := Some(person))]))
  }

  function SetIgnored(db: Db, tx: nat, ignored: bool): Outcome {
    if tx !in db.bank then RolledBack(NotFound)
    else
      var t := db.bank[tx];
      if !Unresolved(db, t, if ignored then Open else Ignored) then RolledBack(NotOpen)
      else Committed(db.(bank := db.bank[tx := t.(status := if ignored then Ignored else Open, person := None)]))
  }

  /** Importing a statement line; a line seen before is skipped. */
  function ImportBank(db: Db, tx: nat, amount: int, euro: bool): Db {
    if tx in db.bank then db else db.(bank := db.bank[tx := BankTx(amount, euro, Open, None, None)])
  }

  // ---------- one-off charges ----------

  function FindCharge(charges: seq<ChargeRow>, id: nat, n: nat): (r: Option<nat>)
    requires n <= |charges|
    ensures r.Some? ==> r.value < n && charges[r.value].id == id
  {
    if n == 0 then None
    else if charges[n - 1].id == id then Some(n - 1)
    else FindCharge(charges, id, n - 1)
  }

  /** On an active invoice, or allocated by a receipt that still stands. */
  predicate FinanciallyLocked(db: Db, charge: nat) {
    || Position(OneOffCharge, charge, "") in db.sources
    || exists k :: 0 <= k < |db.allocs| && db.allocs[k].charge == charge
         && db.allocs[k].payment < |db.payments| && !db.payments[db.allocs[k].payment].reversed
  }

  function UpdateCharge(db: Db, id: nat, person: nat, vehicle: Option<nat>, amount: int, quantity: int, on: nat): Outcome {
    match FindCharge(db.charges, id, |db.charges|)
    case None => RolledBack(NotFound)
    case Some(k) =>
      var c := db.charges[k];
      if (c.person != person || c.vehicle != vehicle || c.amount != amount || c.quantity != quantity)
         && FinanciallyLocked(db, id)
      then RolledBack(Invoiced)
      else
        Committed(db.(charges := db.charges[k := ChargeRow(id, person, vehicle,
          if c.vehicle != vehicle then false else c.paid, amount, quantity, on)]))
  }

  function DeleteCharge(db: Db, id: nat): Outcome {
    match FindCharge(db.charges, id, |db.charges|)
    case None => RolledBack(NotFound)
    case Some(k) =>
      if FinanciallyLocked(db, id) then RolledBack(Invoiced)
      else Committed(db.(charges := db.charges[..k] + db.charges[k + 1..]))
  }

  /** A new one-off charge gets the next id of its sequence and is open. */
  function CreateCharge(db: Db, person: nat, vehicle: Option<nat>, amount: int, quantity: int, on: nat): Db {
    db.(charges := db.charges + [ChargeRow(db.nextCharge, person, vehicle, false, amount, quantity, on)],
        nextCharge := db.nextCharge + 1)
  }

  // ---------- runs ----------

  datatype Op =
    | OpCreateInvoice(person: nat, known: bool, acc: Accounts, rate: nat, parts: Particulars, asOf: nat)
    | OpCancelInvoice(invoice: nat, asOf: nat)
    | OpSaveSettings(next: int, prefix: string, pad: int)
    | OpPay(req: Request, actor: nat, key: Option<string>)
    | OpApplyCredit(person: nat)
    | OpSettleExtras(person: nat, agreement: nat, covered: set<nat>, actor: nat)
    | OpCreateDeposit(person: nat, known: bool, kind: DepositKind, amount: int, actor: nat)
    | OpDeleteDeposit(deposit: nat)
    | OpReverse(payment: nat)
    | OpAssignBank(tx: nat, target: Target, actor: nat)
    | OpSetIgnored(tx: nat, ignored: bool)
    | OpImportBank(tx: nat, amount: int, euro: bool)
    | OpCreateCharge(person: nat, vehicle: Option<nat>, amount: int, quantity: int, on: nat)
    | OpUpdateCharge(charge: nat, person: nat, vehicle: Option<nat>, amount: int, quantity: int, on: nat)
    | OpDeleteCharge(charge: nat)

  /** The key a client may send with a payment. */
  function KeyOf(key: Option<string>): PaymentKey {
    match key
    case None => NoKey
    case Some(text) => ClientKey(text)
  }

  function Step(db: Db, op: Op): Db {
    match op
    case OpCreateInvoice(person, known, acc, rate, parts, asOf) =>
      Apply(db, CreateInvoice(db, person, known, acc, rate, parts, asOf))
    case OpCancelInvoice(id, asOf) => Apply(db, CancelInvoice(db, id, asOf))
    case OpSaveSettings(next, prefix, pad) => SaveSettings(db, next, prefix, pad)
    case OpPay(req, actor, key) =>
      Apply(db, PayInvoices(db, req, actor, KeyOf(key)))
    case OpApplyCredit(person) => ApplyCredit(db, person)
    case OpSettleExtras(person, agreement, covered, actor) => SettleExtras(db, person, agreement, covered, actor)
    case OpCreateDeposit(person, known, kind, amount, actor) =>
      Apply(db, CreateDeposit(db, person, known, kind, amount, actor))
    case OpDeleteDeposit(id) => Apply(db, DeleteDeposit(db, id))
    case OpReverse(p) => Apply(db, ReversePayment(db, p))
    case OpAssignBank(tx, target, actor) => Apply(db, AssignBank(db, tx, target, actor))
    case OpSetIgnored(tx, ignored) => Apply(db, SetIgnored(db, tx, ignored))
    case OpImportBank(tx, amount, euro) => ImportBank(db, tx, amount, euro)
    case OpCreateCharge(person, vehicle, amount, quantity, on) => CreateCharge(db, person, vehicle, amount, quantity, on)
    case OpUpdateCharge(id, person, vehicle, amount, quantity, on) =>
      Apply(db, UpdateCharge(db, id, person, vehicle, amount, quantity, on))
    case OpDeleteCharge(id) => Apply(db, DeleteCharge(db, id))
  }

  function Run(db: Db, ops: seq<Op>): Db {
    if ops == [] then db else Step(Run(db, ops[..|ops| - 1]), ops[|ops| - 1])
  }
}
