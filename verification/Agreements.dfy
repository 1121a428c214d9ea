/**
 Flat-rate agreements: which vehicles and days each covers, and what may still change once one
 of their periods stands on an invoice.
 */
module Agreements {
  import opened Calendar
  import opened PeriodKeys
  import opened Accrual

  /** The end day is inclusive; no listed vehicle means all vehicles of the person. */
  datatype Agreement = Agreement(
    person: nat, amount: nat, period: BillingPeriod, start: nat, end: Option<nat>, vehicles: set<nat>, settled: bool)

  /** A position of an active invoice: the key it locks, the period the key stands for, the cost billed. */
  datatype Row = Row(agreement: nat, key: string, index: nat, cost: int)

  /** Agreements and vehicles (with their owners) by id, and the invoiced agreement positions. */
  datatype State = State(
    agreements: map<nat, Agreement>, nextAgreement: nat, vehicles: map<nat, nat>, nextVehicle: nat, rows: seq<Row>)

  datatype Error = NotFound | ForeignVehicle | Overlap | Settled | Invoiced

  datatype Outcome = Committed(s: State) | RolledBack(error: Error)

  function Apply(s: State, o: Outcome): State {
    match o
    case Committed(next) => next
    case RolledBack(_) => s
  }

  // ---------- overlap ----------

  /** The day number of 9999-01-01, which stands for an open end. */
  function FarFuture(): nat {
    PeriodStart(Yearly, 9999)
  }

  function EndOf(a: Agreement): nat {
    if a.end.Some? then a.end.value + 1 else FarFuture()
  }

  predicate OverlapInTime(a: Agreement, b: Agreement) {
    a.start < EndOf(b) && b.start < EndOf(a)
  }

  predicate InWindow(a: Agreement, day: nat) {
    a.start <= day && (a.end.Some? ==> day <= a.end.value)
  }

  predicate Ordered(a: Agreement) {
    a.end.Some? ==> a.start <= a.end.value
  }

  ghost predicate ShareADay(a: Agreement, b: Agreement) {
    exists day: nat :: InWindow(a, day) && InWindow(b, day)
  }

  /**
   The overlap test is exact as long as nothing that starts on 9999-01-01 or later meets an
   open end; there it misses every overlap.
   */
  lemma OverlapIsExact(a: Agreement, b: Agreement)
    requires Ordered(a) && Ordered(b)
    ensures OverlapInTime(a, b)
      <==> (ShareADay(a, b) && (a.end.None? ==> b.start < FarFuture()) && (b.end.None? ==> a.start < FarFuture()))
  {
    hide FarFuture;
    var day := if a.start <= b.start then b.start else a.start;
    if ShareADay(a, b) {
      var d: nat :| InWindow(a, d) && InWindow(b, d);
      assert InWindow(a, day) && InWindow(b, day);
    }
    if OverlapInTime(a, b) && a.start < FarFuture() && b.start < FarFuture() {
      assert InWindow(a, day) && InWindow(b, day);
    }
    if OverlapInTime(a, b) {
      assert InWindow(a, day) && InWindow(b, day);
    }
  }

  predicate Conflict(a: Agreement, b: Agreement) {
    OverlapInTime(a, b) && (a.vehicles == {} || b.vehicles == {} || a.vehicles * b.vehicles != {})
  }

  /** The conflict test as the code runs it, over the vehicle lists. */
  method AgreementsConflict(a: Agreement, b: Agreement, listA: seq<nat>, listB: seq<nat>) returns (conflict: bool)
    requires a.vehicles == (set v | v in listA) && b.vehicles == (set v | v in listB)
    ensures conflict <==> Conflict(a, b)
  {
    hide OverlapInTime;
    if !OverlapInTime(a, b) { return false; }
    if |listA| == 0 || |listB| == 0 {
      assert listA == [] ==> a.vehicles == {};
      assert listB == [] ==> b.vehicles == {};
      return true;
    }
    assert listA[0] in a.vehicles && listB[0] in b.vehicles;
    for k := 0 to |listB|
      invariant forall j :: 0 <= j < k ==> listB[j] !in a.vehicles
    {
      if listB[k] in a.vehicles {
        assert listB[k] in a.vehicles * b.vehicles;
        return true;
      }
    }
    return false;
  }

  // ---------- accrual of one period ----------

  function TermsOf(a: Agreement): Terms {
    Terms(a.amount, a.period, a.start, a.end, [], [])
  }

  /** The exclusive end of what an agreement accrues in its `i`-th sub-period. */
  function PeriodUntil(a: Agreement, i: nat): nat {
    var e := PeriodStart(a.period, i + 1);
    if a.end.Some? && a.end.value + 1 < e then a.end.value + 1 else e
  }

  function PeriodFromDay(a: Agreement, i: nat): nat {
    var s := PeriodStart(a.period, i);
    if s < a.start then a.start else s
  }

  function PeriodCost(a: Agreement, i: nat): int {
    SliceCents(TermsOf(a), PeriodFromDay(a, i), PeriodUntil(a, i), PeriodLength(a.period, i))
  }

  /** The agreement has days in the period. */
  predicate RunsIn(a: Agreement, i: nat) {
    PeriodFromDay(a, i) < PeriodUntil(a, i)
  }

  // ---------- invoiced positions ----------

  predicate Billed(rows: seq<Row>, id: nat, key: string) {
    exists k :: 0 <= k < |rows| && rows[k].agreement == id && rows[k].key == key
  }

  predicate AnyBilled(rows: seq<Row>, id: nat) {
    exists k :: 0 <= k < |rows| && rows[k].agreement == id
  }

  /** SELECT max(period_key): the greatest key in text order. */
  function MaxKey(rows: seq<Row>, id: nat): Option<string> {
    if rows == [] then None
    else
      var last := rows[|rows| - 1];
      var before := MaxKey(rows[..|rows| - 1], id);
      if last.agreement != id then before
      else if before.Some? && !LexLess(before.value, last.key) then before
      else Some(last.key)
  }

  /** A new end day may not cut into the last invoiced period. */
  predicate Retracts(rows: seq<Row>, id: nat, newEnd: Option<nat>) {
    newEnd.Some? && MaxKey(rows, id).Some? && newEnd.value + 1 < PeriodKeyEnd(MaxKey(rows, id).value)
  }

  /** An invoiced final part of a period cannot be extended: its key is used up. */
  predicate ExtendsInvoicedPart(rows: seq<Row>, id: nat, prior: Option<nat>, wanted: Option<nat>, p: BillingPeriod) {
    && prior.Some? && (wanted.None? || wanted.value > prior.value)
    && prior.value + 1 != PeriodStart(p, PeriodOf(p, prior.value) + 1)
    && Billed(rows, id, PeriodKey(p, PeriodOf(p, prior.value)))
  }

  /** Every invoiced position stands for the period its key names, at the cost that period has now. */
  predicate RowOk(agreements: map<nat, Agreement>, r: Row) {
    && r.agreement in agreements
    && var a := agreements[r.agreement];
       YearOf(a.period, r.index) <= MAX_YEAR && r.key == PeriodKey(a.period, r.index)
       && RunsIn(a, r.index) && r.cost == PeriodCost(a, r.index)
  }

  predicate RowsOk(s: State) {
    forall k :: 0 <= k < |s.rows| ==> RowOk(s.agreements, s.rows[k])
  }

  // ---------- transactions ----------

  /** A request to create or change an agreement, with `news` vehicles made on the spot. */
  datatype Candidate = Candidate(amount: nat, period: BillingPeriod, start: nat, end: Option<nat>, vehicles: set<nat>, news: nat)

  /** The ids of `n` new rows. */
  function Fresh(next: nat, n: nat): (r: set<nat>)
    ensures forall v :: v in r <==> next <= v < next + n
  {
    if n == 0 then {} else Fresh(next, n - 1) + {next + n - 1}
  }

  function CandidateOf(c: Candidate, person: nat): Agreement {
    Agreement(person, c.amount, c.period, c.start, c.end, c.vehicles, false)
  }

  /** New vehicles of a candidate that lists none can only clash with person-wide agreements. */
  predicate Clashes(s: State, person: nat, exclude: Option<nat>, c: Candidate) {
    exists id :: id in s.agreements && s.agreements[id].person == person && exclude != Some(id)
      && !(c.vehicles == {} && c.news > 0 && s.agreements[id].vehicles != {})
      && Conflict(CandidateOf(c, person), s.agreements[id])
  }

  function Validate(s: State, person: nat, exclude: Option<nat>, c: Candidate): Option<Error> {
    if !(forall v :: v in c.vehicles ==> v in s.vehicles && s.vehicles[v] == person) then Some(ForeignVehicle)
    else if Clashes(s, person, exclude, c) then Some(Overlap)
    else None
  }

  function AddVehicles(s: State, person: nat, n: nat): State {
    s.(vehicles := map v | v in s.vehicles.Keys + Fresh(s.nextVehicle, n) :: if v in s.vehicles then s.vehicles[v] else person,
       nextVehicle := s.nextVehicle + n)
  }

  function Create(s: State, person: nat, c: Candidate): Outcome {
    match Validate(s, person, None, c)
    case Some(e) => RolledBack(e)
    case None =>
      var t := AddVehicles(s, person, c.news);
      Committed(t.(
        agreements := s.agreements[s.nextAgreement :=
          CandidateOf(c, person).(vehicles := c.vehicles + Fresh(s.nextVehicle, c.news))],
        nextAgreement := s.nextAgreement + 1))
  }

  function Update(s: State, id: nat, c: Candidate): Outcome {
    if id !in s.agreements then RolledBack(NotFound)
    else
      var prior := s.agreements[id];
      match Validate(s, prior.person, Some(id), c)
      case Some(e) => RolledBack(e)
      case None =>
        var t := AddVehicles(s, prior.person, c.news);
        var vehicles := c.vehicles + Fresh(s.nextVehicle, c.news);
        var defined := prior.period != c.period || prior.start != c.start || prior.amount != c.amount || prior.vehicles != vehicles;
        if prior.settled && (defined || prior.end != c.end) then RolledBack(Settled)
        else if ExtendsInvoicedPart(s.rows, id, prior.end, c.end, prior.period) then RolledBack(Invoiced)
        else if (defined || Retracts(s.rows, id, c.end)) && AnyBilled(s.rows, id) then RolledBack(Invoiced)
        else
          Committed(t.(agreements := s.agreements[id := CandidateOf(c, prior.person).(vehicles := vehicles, settled := prior.settled)]))
  }

  /** Removes vehicles; agreements that listed them no longer do. */
  function DropVehicles(s: State, gone: set<nat>): State {
    s.(vehicles := s.vehicles - gone,
       agreements := map id | id in s.agreements :: s.agreements[id].(vehicles := s.agreements[id].vehicles - gone))
  }

  /** The vehicles only this agreement lists. */
  function OwnVehicles(s: State, id: nat): set<nat>
    requires id in s.agreements
  {
    set v | v in s.agreements[id].vehicles && forall o :: o in s.agreements && o != id ==> v !in s.agreements[o].vehicles
  }

  function Delete(s: State, id: nat, deleteVehicles: bool): Outcome {
    if id !in s.agreements then RolledBack(NotFound)
    else if s.agreements[id].settled then RolledBack(Settled)
    else if AnyBilled(s.rows, id) then RolledBack(Invoiced)
    else
      var t := if deleteVehicles then DropVehicles(s, OwnVehicles(s, id)) else s;
      Committed(t.(agreements := t.agreements - {id}))
  }

  function DeleteVehicle(s: State, v: nat): Outcome {
    if v !in s.vehicles then RolledBack(NotFound) else Committed(DropVehicles(s, {v}))
  }

  /** Invoicing one completed, not yet invoiced period of an agreement. */
  function Bill(s: State, id: nat, i: nat, asOf: nat): Outcome {
    if id !in s.agreements then RolledBack(NotFound)
    else
      var a := s.agreements[id];
      var key := PeriodKey(a.period, i);
      if YearOf(a.period, i) > MAX_YEAR || !RunsIn(a, i) || PeriodUntil(a, i) > asOf || Billed(s.rows, id, key)
      then RolledBack(NotFound)
      else Committed(s.(rows := s.rows + [Row(id, key, i, PeriodCost(a, i))]))
  }

  /** Storno takes positions back. */
  function DropRow(rows: seq<Row>, id: nat, key: string): seq<Row> {
    if rows == [] then []
    else
      var r := rows[|rows| - 1];
      DropRow(rows[..|rows| - 1], id, key) + (if r.agreement == id && r.key == key then [] else [r])
  }

  datatype Op =
    | OpCreate(person: nat, c: Candidate)
    | OpUpdate(id: nat, c: Candidate)
    | OpDelete(id: nat, deleteVehicles: bool)
    | OpAddVehicle(person: nat)
    | OpDeleteVehicle(vehicle: nat)
    | OpMoveVehicle(vehicle: nat, person: nat)
    | OpSettle(id: nat)
    | OpBill(id: nat, index: nat, asOf: nat)
    | OpStorno(id: nat, key: string)

  function Step(s: State, op: Op): State {
    match op
    case OpCreate(person, c) => Apply(s, Create(s, person, c))
    case OpUpdate(id, c) => Apply(s, Update(s, id, c))
    case OpDelete(id, deleteVehicles) => Apply(s, Delete(s, id, deleteVehicles))
    case OpAddVehicle(person) => AddVehicles(s, person, 1)
    case OpDeleteVehicle(v) => Apply(s, DeleteVehicle(s, v))
    case OpMoveVehicle(v, person) => if v in s.vehicles then s.(vehicles := s.vehicles[v := person]) else s
    case OpSettle(id) => if id in s.agreements then s.(agreements := s.agreements[id := s.agreements[id].(settled := true)]) else s
    case OpBill(id, i, asOf) => Apply(s, Bill(s, id, i, asOf))
    case OpStorno(id, key) => s.(rows := DropRow(s.rows, id, key))
  }

  function Run(s: State, ops: seq<Op>): State {
    if ops == [] then s else Step(Run(s, ops[..|ops| - 1]), ops[|ops| - 1])
  }

  function Empty(): State {
    State(map[], 0, map[], 0, [])
  }

  // ---------- what an invoiced period keeps ----------

  lemma PlainCost(a: Agreement, i: nat)
    requires RunsIn(a, i)
    ensures PeriodCost(a, i) == FractionCents(a.amount, PeriodUntil(a, i) - PeriodFromDay(a, i), PeriodLength(a.period, i))
  {
    hide PeriodUntil, PeriodFromDay, PeriodLength, FractionCents, SliceCents;
    PlainSlice(TermsOf(a), PeriodFromDay(a, i), PeriodUntil(a, i), PeriodLength(a.period, i));
  }

  predicate SameDefinition(a: Agreement, b: Agreement) {
    a.amount == b.amount && a.period == b.period && a.start == b.start
  }

  /** A row keeps its cost as long as the definition and the end of its period do not move. */
  lemma RowSurvives(before: map<nat, Agreement>, after: map<nat, Agreement>, r: Row)
    requires RowOk(before, r) && r.agreement in after && SameDefinition(before[r.agreement], after[r.agreement])
    requires PeriodUntil(after[r.agreement], r.index) == PeriodUntil(before[r.agreement], r.index)
    ensures RowOk(after, r)
  {
    hide PeriodUntil, PeriodKey, PeriodCost, PeriodStart, FractionCents;
    PlainCost(before[r.agreement], r.index);
    assert RunsIn(after[r.agreement], r.index);
    PlainCost(after[r.agreement], r.index);
  }

  /** The greatest key in text order is the one of the latest invoiced period. */
  lemma {:induction false} MaxKeyIsLatest(agreements: map<nat, Agreement>, rows: seq<Row>, id: nat)
    requires forall k :: 0 <= k < |rows| ==> RowOk(agreements, rows[k])
    ensures MaxKey(rows, id).None? ==> !AnyBilled(rows, id)
    ensures MaxKey(rows, id).Some? ==>
      exists m :: 0 <= m < |rows| && rows[m].agreement == id && MaxKey(rows, id) == Some(rows[m].key)
        && forall k :: 0 <= k < |rows| && rows[k].agreement == id ==> rows[k].index <= rows[m].index
  {
    hide PeriodKey, PeriodCost, RunsIn, YearOf, LexLess;
    if rows != [] {
      var n := |rows| - 1;
      var before := rows[..n];
      forall k | 0 <= k < n ensures RowOk(agreements, before[k]) { assert before[k] == rows[k]; }
      MaxKeyIsLatest(agreements, before, id);
      if rows[n].agreement == id {
        if MaxKey(before, id).Some? {
          var m :| 0 <= m < n && before[m].agreement == id && MaxKey(before, id) == Some(before[m].key)
                   && forall k :: 0 <= k < n && before[k].agreement == id ==> before[k].index <= before[m].index;
          assert RowOk(agreements, rows[m]) && RowOk(agreements, rows[n]);
          KeyOrderIsCalendarOrder(agreements[id].period, rows[m].index, rows[n].index);
          var best := if LexLess(rows[m].key, rows[n].key) then n else m;
          assert rows[best].agreement == id && MaxKey(rows, id) == Some(rows[best].key);
          forall k | 0 <= k < |rows| && rows[k].agreement == id ensures rows[k].index <= rows[best].index {
            if k < n { assert before[k] == rows[k]; }
          }
        } else {
          forall k | 0 <= k < n ensures rows[k].agreement != id { assert before[k] == rows[k]; }
          assert MaxKey(rows, id) == Some(rows[n].key);
        }
      } else if MaxKey(before, id).Some? {
        var m :| 0 <= m < n && before[m].agreement == id && MaxKey(before, id) == Some(before[m].key)
                 && forall k :: 0 <= k < n && before[k].agreement == id ==> before[k].index <= before[m].index;
        assert rows[m].agreement == id && MaxKey(rows, id) == Some(rows[m].key);
        forall k | 0 <= k < |rows| && rows[k].agreement == id ensures rows[k].index <= rows[m].index { assert before[k] == rows[k]; }
      } else {
        forall k | 0 <= k < |rows| ensures rows[k].agreement != id {
          if k < n { assert before[k] == rows[k]; }
        }
      }
    }
  }

  /** An end day that does not retract reaches the end of every invoiced period. */
  lemma NoRetractReaches(s: State, id: nat, newEnd: nat, k: nat)
    requires RowsOk(s) && !Retracts(s.rows, id, Some(newEnd)) && k < |s.rows| && s.rows[k].agreement == id
    ensures PeriodStart(s.agreements[id].period, s.rows[k].index + 1) <= newEnd + 1
  {
    hide PeriodKey, PeriodCost, RunsIn, PeriodKeyEnd, PeriodStart, MaxKey;
    MaxKeyIsLatest(s.agreements, s.rows, id);
    assert RowOk(s.agreements, s.rows[k]);
    var m :| 0 <= m < |s.rows| && s.rows[m].agreement == id && MaxKey(s.rows, id) == Some(s.rows[m].key)
             && s.rows[k].index <= s.rows[m].index;
    assert RowOk(s.agreements, s.rows[m]);
    KeyEndInvertsKey(s.agreements[id].period, s.rows[m].index);
    PeriodStartOrdered(s.agreements[id].period, s.rows[k].index + 1, s.rows[m].index + 1);
  }

  /** The guards together pin the end of every invoiced period, wherever the end day moves. */
  lemma GuardsPinThePeriod(s: State, id: nat, wanted: Option<nat>, k: nat)
    requires RowsOk(s) && k < |s.rows| && s.rows[k].agreement == id
    requires !Retracts(s.rows, id, wanted)
    requires !ExtendsInvoicedPart(s.rows, id, s.agreements[id].end, wanted, s.agreements[id].period)
    ensures var a := s.agreements[id]; PeriodUntil(a.(end := wanted), s.rows[k].index) == PeriodUntil(a, s.rows[k].index)
  {
    hide PeriodKey, PeriodCost, PeriodStart, PeriodOf, MaxKey, PeriodKeyEnd;
    var a, i := s.agreements[id], s.rows[k].index;
    assert RowOk(s.agreements, s.rows[k]);
    FinalPartIsBilled(s, id, k);
    if wanted.Some? { NoRetractReaches(s, id, wanted.value, k); }
  }

  /** If the agreement ends inside an invoiced period, the key of its end day is an invoiced one. */
  lemma FinalPartIsBilled(s: State, id: nat, k: nat)
    requires RowsOk(s) && k < |s.rows| && s.rows[k].agreement == id
    ensures id in s.agreements
    ensures var a, i := s.agreements[id], s.rows[k].index;
      a.end.Some? && a.end.value + 1 < PeriodStart(a.period, i + 1) ==>
        PeriodOf(a.period, a.end.value) == i && Billed(s.rows, id, PeriodKey(a.period, i))
  {
    hide PeriodKey, PeriodCost, PeriodStart, PeriodOf;
    assert RowOk(s.agreements, s.rows[k]);
    var a, i := s.agreements[id], s.rows[k].index;
    if a.end.Some? && a.end.value + 1 < PeriodStart(a.period, i + 1) {
      PeriodOfUnique(a.period, a.end.value, i);
      assert Billed(s.rows, id, s.rows[k].key);
    }
  }

  lemma UpdateKeepsRows(s: State, id: nat, c: Candidate)
    requires RowsOk(s)
    ensures RowsOk(Apply(s, Update(s, id, c)))
  {
    hide Validate, PeriodUntil, PeriodKey, PeriodCost, Retracts, ExtendsInvoicedPart, RowOk, Fresh;
    var o := Update(s, id, c);
    if o.Committed? {
      forall k | 0 <= k < |s.rows| ensures RowOk(o.s.agreements, s.rows[k]) {
        var r := s.rows[k];
        assert RowOk(s.agreements, r);
        if r.agreement == id {
          GuardsPinThePeriod(s, id, c.end, k);
          UntilIsOfDates(s.agreements[id].(end := c.end), o.s.agreements[id], r.index);
        } else {
          UntilIsOfDates(s.agreements[r.agreement], s.agreements[r.agreement], r.index) by { RowHasAgreement(s, k); }
        }
        RowHasAgreement(s, k);
        RowSurvives(s.agreements, o.s.agreements, r);
      }
    }
  }

  lemma RowHasAgreement(s: State, k: nat)
    requires k < |s.rows| && RowOk(s.agreements, s.rows[k])
    ensures s.rows[k].agreement in s.agreements
  {
    hide PeriodKey, PeriodCost, RunsIn;
  }

  lemma UntilIsOfDates(a: Agreement, b: Agreement, i: nat)
    requires a.period == b.period && a.end == b.end
    ensures PeriodUntil(a, i) == PeriodUntil(b, i)
  {
    hide PeriodStart;
  }

  /** Rows survive whatever only changes vehicle lists, settled marks or other agreements. */
  lemma UntouchedKeepsRows(s: State, t: State)
    requires RowsOk(s) && t.rows == s.rows
    requires forall id :: id in s.agreements && AnyBilled(s.rows, id) ==>
      id in t.agreements && SameDefinition(s.agreements[id], t.agreements[id]) && t.agreements[id].end == s.agreements[id].end
    ensures RowsOk(t)
  {
    hide PeriodUntil, PeriodKey, PeriodCost, RowOk;
    forall k | 0 <= k < |s.rows| ensures RowOk(t.agreements, s.rows[k]) {
      var r := s.rows[k];
      RowHasAgreement(s, k);
      assert AnyBilled(s.rows, r.agreement);
      UntilIsOfDates(s.agreements[r.agreement], t.agreements[r.agreement], r.index);
      RowSurvives(s.agreements, t.agreements, r);
    }
  }

  lemma {:induction false} DropRowIsSubset(rows: seq<Row>, id: nat, key: string)
    ensures forall r :: r in DropRow(rows, id, key) <==> r in rows && !(r.agreement == id && r.key == key)
  {
    if rows != [] {
      var n := |rows| - 1;
      DropRowIsSubset(rows[..n], id, key);
      assert rows == rows[..n] + [rows[n]];
    }
  }

  lemma BillKeepsRows(s: State, id: nat, i: nat, asOf: nat)
    requires RowsOk(s)
    ensures RowsOk(Apply(s, Bill(s, id, i, asOf)))
  {
    hide PeriodUntil, PeriodKey, PeriodCost, RunsIn, Billed;
    var o := Bill(s, id, i, asOf);
    if o.Committed? {
      assert RowOk(s.agreements, o.s.rows[|s.rows|]);
      forall k | 0 <= k < |s.rows| ensures RowOk(s.agreements, o.s.rows[k]) { assert o.s.rows[k] == s.rows[k]; }
    }
  }

  lemma StepKeepsRows(s: State, op: Op)
    requires RowsOk(s) && IdsOk(s)
    ensures RowsOk(Step(s, op))
  {
    hide RowsOk, Validate, Update, Bill, Fresh, OwnVehicles;
    match op
    case OpUpdate(id, c) => UpdateKeepsRows(s, id, c);
    case OpBill(id, i, asOf) => BillKeepsRows(s, id, i, asOf);
    case OpStorno(id, key) => StornoKeepsRows(s, id, key);
    case OpAddVehicle(person) => AddVehicleKeepsRows(s, person, 1);
    case _ => UntouchedKeepsRows(s, Step(s, op));
  }

  lemma AddVehicleKeepsRows(s: State, person: nat, n: nat)
    requires RowsOk(s)
    ensures RowsOk(AddVehicles(s, person, n))
  {
    hide RowOk;
  }

  lemma StornoKeepsRows(s: State, id: nat, key: string)
    requires RowsOk(s)
    ensures RowsOk(s.(rows := DropRow(s.rows, id, key)))
  {
    hide RowOk;
    DropRowIsSubset(s.rows, id, key);
    var rows := DropRow(s.rows, id, key);
    forall k | 0 <= k < |rows| ensures RowOk(s.agreements, rows[k]) { assert rows[k] in rows && rows[k] in s.rows; }
  }

  // ---------- ids ----------

  /** Ids come from sequences, and lists name vehicles that once existed. */
  predicate IdsOk(s: State) {
    && (forall id :: id in s.agreements ==> id < s.nextAgreement && Ordered(s.agreements[id]))
    && (forall id, v :: id in s.agreements && v in s.agreements[id].vehicles ==> v < s.nextVehicle)
    && (forall v :: v in s.vehicles ==> v < s.nextVehicle)
  }

  /** Requests are parsed before they get here: the end is not before the start. */
  predicate Parsed(op: Op) {
    (op.OpCreate? || op.OpUpdate?) ==> (op.c.end.Some? ==> op.c.start <= op.c.end.value)
  }

  lemma StepKeepsIds(s: State, op: Op)
    requires IdsOk(s) && Parsed(op)
    ensures IdsOk(Step(s, op))
  {
    hide Clashes, ExtendsInvoicedPart, Retracts, AnyBilled, Billed, PeriodUntil, PeriodKey, PeriodCost, RunsIn;
  }

  /**
   In every run of edits, deletions, invoicing and Storno, each invoiced agreement period still
   accrues, to the cent, what it was billed for.
   */
  lemma {:induction false} InvoicedPeriodsKeepTheirAccrual(s: State, ops: seq<Op>)
    requires RowsOk(s) && IdsOk(s) && forall k :: 0 <= k < |ops| ==> Parsed(ops[k])
    ensures RowsOk(Run(s, ops)) && IdsOk(Run(s, ops))
  {
    hide RowsOk, IdsOk, Step, Parsed;
    if ops != [] {
      InvoicedPeriodsKeepTheirAccrual(s, ops[..|ops| - 1]);
      StepKeepsRows(Run(s, ops[..|ops| - 1]), ops[|ops| - 1]);
      StepKeepsIds(Run(s, ops[..|ops| - 1]), ops[|ops| - 1]);
    }
  }

  /** A new end day retracts exactly if it lies before the last day of some invoiced period. */
  lemma RetractsIff(s: State, id: nat, newEnd: nat)
    requires RowsOk(s) && id in s.agreements
    ensures Retracts(s.rows, id, Some(newEnd)) <==> CutsIntoBilled(s, id, newEnd)
  {
    hide PeriodKey, PeriodCost, RunsIn, PeriodKeyEnd, PeriodStart, MaxKey;
    MaxKeyIsLatest(s.agreements, s.rows, id);
    if Retracts(s.rows, id, Some(newEnd)) {
      var m :| 0 <= m < |s.rows| && s.rows[m].agreement == id && MaxKey(s.rows, id) == Some(s.rows[m].key);
      assert RowOk(s.agreements, s.rows[m]);
      KeyEndInvertsKey(s.agreements[id].period, s.rows[m].index);
    } else if CutsIntoBilled(s, id, newEnd) {
      var k :| 0 <= k < |s.rows| && s.rows[k].agreement == id
               && newEnd + 1 < PeriodStart(s.agreements[id].period, s.rows[k].index + 1);
      NoRetractReaches(s, id, newEnd, k);
    }
  }

  /** The end day lies before the last day of a period of the agreement that is invoiced. */
  predicate CutsIntoBilled(s: State, id: nat, end: nat)
    requires id in s.agreements
  {
    exists k :: 0 <= k < |s.rows| && s.rows[k].agreement == id
      && end + 1 < PeriodStart(s.agreements[id].period, s.rows[k].index + 1)
  }

  /** The request that saves an agreement as it is. */
  function AsStored(a: Agreement): Candidate {
    Candidate(a.amount, a.period, a.start, a.end, a.vehicles, 0)
  }

  /**
   Saving an agreement as it is changes nothing and succeeds if and only if it validates and does
   not end inside an invoiced period: there, keeping the end day already counts as cutting into it.
   */
  lemma SavingUnchanged(s: State, id: nat)
    requires RowsOk(s) && id in s.agreements
    ensures var a := s.agreements[id];
      Update(s, id, AsStored(a)) ==
        match Validate(s, a.person, Some(id), AsStored(a))
        case Some(e) => RolledBack(e)
        case None =>
          if a.end.Some? && CutsIntoBilled(s, id, a.end.value) then RolledBack(Invoiced) else Committed(s)
  {
    hide Validate, Retracts, CutsIntoBilled, PeriodKey, PeriodCost, PeriodStart, RunsIn;
    var a := s.agreements[id];
    if a.end.Some? {
      RetractsIff(s, id, a.end.value);
      if CutsIntoBilled(s, id, a.end.value) { CutRowIsBilled(s, id, a.end.value); }
    } else {
      OpenEndNeverRetracts(s.rows, id);
    }
    assert Fresh(s.nextVehicle, 0) == {};
    assert a.vehicles + {} == a.vehicles;
    assert AddVehicles(s, a.person, 0).vehicles == s.vehicles;
    assert s.agreements[id := a] == s.agreements;
  }

  lemma CutRowIsBilled(s: State, id: nat, end: nat)
    requires id in s.agreements && CutsIntoBilled(s, id, end)
    ensures AnyBilled(s.rows, id)
  {
    hide PeriodStart;
  }

  lemma OpenEndNeverRetracts(rows: seq<Row>, id: nat)
    ensures !Retracts(rows, id, None)
  {
    hide MaxKey;
  }

  /**
   So an agreement that ends in the middle of a month can no longer be saved once that month is
   invoiced, not even unchanged, whichever month it is.
   */
  lemma EndedAgreementIsFrozen(month: nat, person: nat, amount: nat) returns (ops: seq<Op>, s: State)
    requires YearOf(Monthly, month) <= MAX_YEAR
    ensures s == Run(Empty(), ops) && forall k :: 0 <= k < |ops| ==> Parsed(ops[k])
    ensures 0 in s.agreements && |s.rows| == 1 && s.rows[0].agreement == 0 && s.rows[0].index == month
    ensures Update(s, 0, AsStored(s.agreements[0])) == RolledBack(Invoiced)
  {
    hide PeriodStart, PeriodUntil, PeriodCost, RunsIn, Run, Step, Update, RowsOk, Validate;
    var start := PeriodStart(Monthly, month);
    var c := Candidate(amount, Monthly, start, Some(start + 9), {}, 0);
    var first, second := OpCreate(person, c), OpBill(0, month, start + 10);
    ops := [first, second];
    TenDays(person, amount, month);
    RunOfTwo(first, second);
    FirstAgreement(person, c);
    FirstRow(CandidateOf(c, person), month, start + 10);
    s := Step(Step(Empty(), first), second);
    RunFromEmpty(first, second);
    FrozenNow(s, person, c, month);
  }

  lemma RunFromEmpty(first: Op, second: Op)
    requires Parsed(first) && Parsed(second)
    ensures RowsOk(Run(Empty(), [first, second]))
  {
    hide Run;
    InvoicedPeriodsKeepTheirAccrual(Empty(), [first, second]);
  }

  lemma FrozenNow(s: State, person: nat, c: Candidate, month: nat)
    requires RowsOk(s) && c.vehicles == {} && c.news == 0 && s.agreements == map[0 := CandidateOf(c, person)]
    requires |s.rows| == 1 && s.rows[0].agreement == 0 && s.rows[0].index == month
    requires c.end.Some? && c.end.value + 1 < PeriodStart(c.period, month + 1)
    ensures Update(s, 0, c) == RolledBack(Invoiced)
  {
    hide Update, Validate, PeriodStart, RowsOk;
    NothingToClash(s, person, c);
    SavingUnchanged(s, 0);
    assert AsStored(s.agreements[0]) == c;
    assert CutsIntoBilled(s, 0, c.end.value);
  }

  lemma TenDays(person: nat, amount: nat, month: nat)
    ensures var start := PeriodStart(Monthly, month);
      var a := Agreement(person, amount, Monthly, start, Some(start + 9), {}, false);
      RunsIn(a, month) && PeriodUntil(a, month) == start + 10 < PeriodStart(Monthly, month + 1)
  {
    PeriodStartStep(Monthly, month);
    hide PeriodStart;
  }

  lemma RunOfTwo(first: Op, second: Op)
    ensures Run(Empty(), [first, second]) == Step(Step(Empty(), first), second)
  {
    hide Step;
    var ops := [first, second];
    assert ops[..1] == [first] && [first][..0] == [];
    assert Run(Empty(), ops[..1]) == Step(Run(Empty(), []), first);
    assert Run(Empty(), ops) == Step(Run(Empty(), ops[..1]), ops[1]);
  }

  lemma FirstAgreement(person: nat, c: Candidate)
    requires c.vehicles == {} && c.news == 0
    ensures Step(Empty(), OpCreate(person, c)) == State(map[0 := CandidateOf(c, person)], 1, map[], 0, [])
  {
    hide FarFuture;
    var s := Empty();
    assert Fresh(0, 0) == {} && c.vehicles + {} == c.vehicles;
    assert AddVehicles(s, person, 0).vehicles == map[];
    assert Validate(s, person, None, c).None?;
    assert s.agreements[0 := CandidateOf(c, person)] == map[0 := CandidateOf(c, person)];
  }

  lemma FirstRow(a: Agreement, i: nat, asOf: nat)
    requires YearOf(a.period, i) <= MAX_YEAR && RunsIn(a, i) && PeriodUntil(a, i) <= asOf
    ensures Step(State(map[0 := a], 1, map[], 0, []), OpBill(0, i, asOf))
         == State(map[0 := a], 1, map[], 0, [Row(0, PeriodKey(a.period, i), i, PeriodCost(a, i))])
  {
    hide RunsIn, PeriodUntil, PeriodCost, PeriodKey;
    var s := State(map[0 := a], 1, map[], 0, []);
    assert s.agreements[0] == a;
    assert !Billed(s.rows, 0, PeriodKey(a.period, i));
    assert Bill(s, 0, i, asOf) == Committed(s.(rows := s.rows + [Row(0, PeriodKey(a.period, i), i, PeriodCost(a, i))]));
    assert s.rows + [Row(0, PeriodKey(a.period, i), i, PeriodCost(a, i))] == [Row(0, PeriodKey(a.period, i), i, PeriodCost(a, i))];
  }

  lemma NothingToClash(s: State, person: nat, c: Candidate)
    requires s.agreements.Keys == {0} && c.vehicles == {}
    ensures Validate(s, person, Some(0), c).None?
  {
    hide FarFuture;
  }

  // ---------- every vehicle-day at most once ----------

  /** No two agreements of a person clash by the code's own test. */
  predicate NoConflicts(s: State) {
    forall a, b :: a in s.agreements && b in s.agreements && a != b && s.agreements[a].person == s.agreements[b].person ==>
      !Conflict(s.agreements[a], s.agreements[b])
  }

  /** The agreement bills the vehicle's day: by its owner's agreement that lists it or lists none. */
  predicate Covers(s: State, id: nat, v: nat, day: nat) {
    && id in s.agreements && v in s.vehicles && s.vehicles[v] == s.agreements[id].person
    && (s.agreements[id].vehicles == {} || v in s.agreements[id].vehicles)
    && InWindow(s.agreements[id], day)
  }

  /** Starts before 9999, where the overlap test is exact. */
  predicate StartsNormal(s: State) {
    forall id :: id in s.agreements ==> s.agreements[id].start < FarFuture()
  }

  /** Each vehicle-day is covered by at most one agreement. */
  lemma CoveredOnce(s: State, a: nat, b: nat, v: nat, day: nat)
    requires NoConflicts(s) && StartsNormal(s) && IdsOk(s) && Covers(s, a, v, day) && Covers(s, b, v, day)
    ensures a == b
  {
    hide FarFuture;
    assert ShareADay(s.agreements[a], s.agreements[b]);
    OverlapIsExact(s.agreements[a], s.agreements[b]);
    if s.agreements[a].vehicles != {} && s.agreements[b].vehicles != {} {
      assert v in s.agreements[a].vehicles * s.agreements[b].vehicles;
    }
  }

  /** A validated candidate, with its new vehicles, clashes with none of the person's agreements. */
  lemma ValidatedFits(s: State, person: nat, exclude: Option<nat>, c: Candidate, id: nat, settled: bool)
    requires IdsOk(s) && Validate(s, person, exclude, c).None?
    requires id in s.agreements && s.agreements[id].person == person && exclude != Some(id)
    ensures var made := CandidateOf(c, person).(vehicles := c.vehicles + Fresh(s.nextVehicle, c.news), settled := settled);
      !Conflict(made, s.agreements[id]) && !Conflict(s.agreements[id], made)
  {
    hide FarFuture;
    var other := s.agreements[id];
    var extra := Fresh(s.nextVehicle, c.news);
    assert extra * other.vehicles == {};
    assert (c.vehicles + extra) * other.vehicles == c.vehicles * other.vehicles;
    assert other.vehicles * (c.vehicles + extra) == c.vehicles * other.vehicles;
    assert c.news > 0 ==> s.nextVehicle in extra;
    assert !Clashes(s, person, exclude, c);
  }

  lemma CreateKeepsNoConflicts(s: State, person: nat, c: Candidate)
    requires NoConflicts(s) && IdsOk(s)
    ensures NoConflicts(Apply(s, Create(s, person, c)))
  {
    hide Validate, Conflict, AddVehicles;
    var o := Create(s, person, c);
    if o.Committed? {
      forall id | id in s.agreements && s.agreements[id].person == person
        ensures !Conflict(o.s.agreements[s.nextAgreement], s.agreements[id]) && !Conflict(s.agreements[id], o.s.agreements[s.nextAgreement])
      {
        ValidatedFits(s, person, None, c, id, false);
      }
      assert forall id :: id in s.agreements ==> o.s.agreements[id] == s.agreements[id];
    }
  }

  lemma UpdateKeepsNoConflicts(s: State, id: nat, c: Candidate)
    requires NoConflicts(s) && IdsOk(s)
    ensures NoConflicts(Apply(s, Update(s, id, c)))
  {
    hide Validate, Conflict, AddVehicles, Retracts, ExtendsInvoicedPart, AnyBilled;
    var o := Update(s, id, c);
    if o.Committed? {
      var prior := s.agreements[id];
      forall b | b in s.agreements && b != id && s.agreements[b].person == prior.person
        ensures !Conflict(o.s.agreements[id], s.agreements[b]) && !Conflict(s.agreements[b], o.s.agreements[id])
      {
        ValidatedFits(s, prior.person, Some(id), c, b, prior.settled);
      }
      assert forall b :: b in s.agreements && b != id ==> o.s.agreements[b] == s.agreements[b];
    }
  }

  /** Deleting an agreement, with its own vehicles or not, changes no other agreement at all. */
  lemma DeleteLeavesOthersAlone(s: State, id: nat, deleteVehicles: bool, o: nat)
    requires id in s.agreements && o in s.agreements && o != id
    ensures o in Apply(s, Delete(s, id, deleteVehicles)).agreements
    ensures Apply(s, Delete(s, id, deleteVehicles)).agreements[o] == s.agreements[o]
  {
    assert s.agreements[o].vehicles - OwnVehicles(s, id) == s.agreements[o].vehicles;
  }

  lemma DeleteKeepsNoConflicts(s: State, id: nat, deleteVehicles: bool)
    requires NoConflicts(s)
    ensures NoConflicts(Apply(s, Delete(s, id, deleteVehicles)))
  {
    hide Conflict, OwnVehicles, AnyBilled;
    var t := Apply(s, Delete(s, id, deleteVehicles));
    if id in s.agreements {
      forall o | o in s.agreements && o != id ensures o in t.agreements && t.agreements[o] == s.agreements[o] {
        DeleteLeavesOthersAlone(s, id, deleteVehicles, o);
      }
      assert id in t.agreements ==> t == s;
      assert forall o :: o in t.agreements ==> o in s.agreements;
    }
  }

  /** Whose lock a save or deletion takes. */
  function OwnerOf(s: State, op: Op): Option<nat> {
    match op
    case OpCreate(person, _) => Some(person)
    case OpUpdate(id, _) => if id in s.agreements then Some(s.agreements[id].person) else None
    case OpDelete(id, _) => if id in s.agreements then Some(s.agreements[id].person) else None
    case _ => None
  }

  /**
   Saves and deletions write agreements of their own person only, add vehicles for that person
   only, and remove at most vehicles that the deleted agreement lists.
   */
  lemma SavesStayWithin(s: State, op: Op)
    requires IdsOk(s) && (op.OpCreate? || op.OpUpdate? || op.OpDelete?)
    ensures var t := Step(s, op);
      && (forall o :: o in s.agreements && Some(s.agreements[o].person) != OwnerOf(s, op) ==>
            o in t.agreements && t.agreements[o] == s.agreements[o])
      && (forall o :: o in t.agreements && o !in s.agreements ==> Some(t.agreements[o].person) == OwnerOf(s, op))
      && (forall v :: v in t.vehicles && v !in s.vehicles ==> Some(t.vehicles[v]) == OwnerOf(s, op))
      && (forall v :: v in s.vehicles ==>
            if v in t.vehicles then t.vehicles[v] == s.vehicles[v]
            else op.OpDelete? && op.deleteVehicles && v in s.agreements[op.id].vehicles)
      && t.rows == s.rows
  {
    if op.OpDelete? {
      forall o | o in s.agreements && o != op.id
        ensures o in Step(s, op).agreements && Step(s, op).agreements[o] == s.agreements[o]
      {
        if op.id in s.agreements { DeleteLeavesOthersAlone(s, op.id, op.deleteVehicles, o); }
      }
      hide AnyBilled;
    } else {
      hide Validate, ExtendsInvoicedPart, Retracts, AnyBilled, Fresh;
    }
  }

  /** Some agreement lists only this vehicle and runs while another one of the person does. */
  predicate EmptiesAnOverlap(s: State, v: nat) {
    exists a, b :: a in s.agreements && b in s.agreements && a != b && s.agreements[a].person == s.agreements[b].person
      && s.agreements[a].vehicles == {v} && OverlapInTime(s.agreements[a], s.agreements[b])
  }

  /**
   Deleting a vehicle keeps agreements apart exactly if it does not empty the list of one that
   overlaps another in time: an emptied list means all vehicles.
   */
  lemma DeleteVehicleSafeIff(s: State, v: nat)
    requires NoConflicts(s) && v in s.vehicles
    ensures NoConflicts(Apply(s, DeleteVehicle(s, v))) <==> !EmptiesAnOverlap(s, v)
  {
    hide EndOf;
    var t := Apply(s, DeleteVehicle(s, v));
    forall a, b | a in s.agreements && b in s.agreements && a != b && s.agreements[a].person == s.agreements[b].person
      ensures Conflict(t.agreements[a], t.agreements[b])
        <==> OverlapInTime(s.agreements[a], s.agreements[b]) && (s.agreements[a].vehicles == {v} || s.agreements[b].vehicles == {v})
    {
      DroppedConflict(s.agreements[a], s.agreements[b], v);
    }
    hide Conflict;
    assert forall a, b :: OverlapInTime(a, b) <==> OverlapInTime(b, a);
  }

  lemma DroppedConflict(a: Agreement, b: Agreement, v: nat)
    requires !Conflict(a, b)
    ensures Conflict(a.(vehicles := a.vehicles - {v}), b.(vehicles := b.vehicles - {v}))
      <==> OverlapInTime(a, b) && (a.vehicles == {v} || b.vehicles == {v})
  {
    hide FarFuture;
    var x, y := a.vehicles - {v}, b.vehicles - {v};
    assert x * y <= a.vehicles * b.vehicles;
    assert x == {} <==> a.vehicles == {} || a.vehicles == {v};
    assert y == {} <==> b.vehicles == {} || b.vehicles == {v};
  }

  /** Some vehicle-day is covered by two agreements. */
  ghost predicate CoveredTwice(s: State) {
    exists a, b, v: nat, day: nat :: a != b && Covers(s, a, v, day) && Covers(s, b, v, day)
  }

  /** The deleted vehicle empties one agreement while an overlapping one of the person lists a vehicle of theirs. */
  predicate WidensOnto(s: State, v: nat, a: nat, b: nat, w: nat) {
    && a in s.agreements && b in s.agreements && a != b && s.agreements[a].person == s.agreements[b].person
    && s.agreements[a].vehicles == {v} && OverlapInTime(s.agreements[a], s.agreements[b])
    && w != v && w in s.vehicles && s.vehicles[w] == s.agreements[a].person && w in s.agreements[b].vehicles
  }

  /** Deleting a vehicle covers some vehicle-day twice exactly if it does that. */
  lemma DeleteVehicleCoversTwiceIff(s: State, v: nat)
    requires NoConflicts(s) && StartsNormal(s) && IdsOk(s) && v in s.vehicles
    ensures CoveredTwice(Apply(s, DeleteVehicle(s, v))) <==> exists a, b, w :: WidensOnto(s, v, a, b, w)
  {
    hide FarFuture, EndOf;
    var t := Apply(s, DeleteVehicle(s, v));
    if CoveredTwice(t) {
      var a, b, w: nat, day: nat :| a != b && Covers(t, a, w, day) && Covers(t, b, w, day);
      WidenedFrom(s, v, a, b, w, day);
    }
    if exists a, b, w :: WidensOnto(s, v, a, b, w) {
      var a, b, w :| WidensOnto(s, v, a, b, w);
      OverlapIsExact(s.agreements[a], s.agreements[b]);
      var day: nat :| InWindow(s.agreements[a], day) && InWindow(s.agreements[b], day);
      assert {v} - {v} == {};
      assert Covers(t, a, w, day) && Covers(t, b, w, day);
    }
  }

  lemma WidenedFrom(s: State, v: nat, a: nat, b: nat, w: nat, day: nat)
    requires NoConflicts(s) && StartsNormal(s) && IdsOk(s) && v in s.vehicles && a != b
    requires var t := Apply(s, DeleteVehicle(s, v)); Covers(t, a, w, day) && Covers(t, b, w, day)
    ensures WidensOnto(s, v, a, b, w) || WidensOnto(s, v, b, a, w)
  {
    hide FarFuture, EndOf;
    var x, y := s.agreements[a], s.agreements[b];
    assert InWindow(x, day) && InWindow(y, day);
    OverlapIsExact(x, y);
    OverlapIsExact(y, x);
    assert !Conflict(x, y);
    assert x.vehicles - {v} == {} ==> x.vehicles == {} || x.vehicles == {v};
    assert y.vehicles - {v} == {} ==> y.vehicles == {} || y.vehicles == {v};
    assert w in x.vehicles && w in y.vehicles ==> w in x.vehicles * y.vehicles;
    assert v in x.vehicles && v in y.vehicles ==> v in x.vehicles * y.vehicles;
  }

  /** Requests that stay in the years the overlap test handles. */
  predicate InRange(op: Op) {
    Parsed(op) && ((op.OpCreate? || op.OpUpdate?) ==> op.c.start < FarFuture())
  }

  /** No deletion of a vehicle that empties the list of an agreement overlapping another. */
  predicate Spares(s: State, op: Op) {
    op.OpDeleteVehicle? && op.vehicle in s.vehicles ==> !EmptiesAnOverlap(s, op.vehicle)
  }

  predicate Careful(s: State, op: Op) {
    InRange(op) && Spares(s, op)
  }

  lemma StepKeepsNoConflicts(s: State, op: Op)
    requires NoConflicts(s) && IdsOk(s) && Careful(s, op)
    ensures NoConflicts(Step(s, op))
  {
    hide Conflict, Create, Update, Delete, Bill, EmptiesAnOverlap, AddVehicles, IdsOk, FarFuture;
    match op
    case OpCreate(person, c) => CreateKeepsNoConflicts(s, person, c);
    case OpUpdate(id, c) => UpdateKeepsNoConflicts(s, id, c);
    case OpDelete(id, deleteVehicles) => DeleteKeepsNoConflicts(s, id, deleteVehicles);
    case OpDeleteVehicle(v) => if v in s.vehicles { DeleteVehicleSafeIff(s, v); }
    case OpAddVehicle(person) => AgreementsKept(s, op);
    case OpMoveVehicle(v, person) => AgreementsKept(s, op);
    case OpStorno(id, key) => AgreementsKept(s, op);
    case OpBill(id, i, asOf) => AgreementsKept(s, op);
    case OpSettle(id) => if id in s.agreements { SettledConflicts(s, id); }
  }

  lemma AgreementsKept(s: State, op: Op)
    requires op.OpAddVehicle? || op.OpMoveVehicle? || op.OpStorno? || op.OpBill?
    ensures Step(s, op).agreements == s.agreements
  {
    hide PeriodUntil, PeriodKey, PeriodCost, RunsIn, Billed, Fresh;
  }

  lemma SettledConflicts(s: State, id: nat)
    requires NoConflicts(s) && id in s.agreements
    ensures NoConflicts(s.(agreements := s.agreements[id := s.agreements[id].(settled := true)]))
  {
    hide FarFuture;
  }

  lemma StepKeepsStarts(s: State, op: Op)
    requires StartsNormal(s) && Careful(s, op)
    ensures StartsNormal(Step(s, op))
  {
    hide Validate, AddVehicles, Retracts, ExtendsInvoicedPart, AnyBilled, Bill, EmptiesAnOverlap, FarFuture, OwnVehicles, Fresh;
    if op.OpBill? || op.OpAddVehicle? { AgreementsKept(s, op); }
  }

  ghost predicate CarefulRun(s: State, ops: seq<Op>) {
    forall k :: 0 <= k < |ops| ==> Careful(Run(s, ops[..k]), ops[k])
  }

  /** In every careful run of saves and deletes, each vehicle-day stays covered at most once. */
  lemma {:induction false} RunCoversOnce(s: State, ops: seq<Op>)
    requires NoConflicts(s) && StartsNormal(s) && IdsOk(s) && CarefulRun(s, ops)
    ensures NoConflicts(Run(s, ops)) && StartsNormal(Run(s, ops)) && IdsOk(Run(s, ops))
  {
    hide NoConflicts, StartsNormal, IdsOk, Step, Careful;
    if ops != [] {
      var n := |ops| - 1;
      forall k | 0 <= k < n ensures Careful(Run(s, ops[..n][..k]), ops[..n][k]) { assert ops[..n][..k] == ops[..k]; }
      RunCoversOnce(s, ops[..n]);
      assert Careful(Run(s, ops[..n]), ops[n]);
      StepKeepsNoConflicts(Run(s, ops[..n]), ops[n]);
      StepKeepsStarts(Run(s, ops[..n]), ops[n]);
      CarefulIsParsed(Run(s, ops[..n]), ops[n]);
      StepKeepsIds(Run(s, ops[..n]), ops[n]);
    }
  }

  lemma CarefulIsParsed(s: State, op: Op)
    requires Careful(s, op)
    ensures Parsed(op)
  {
    hide EmptiesAnOverlap, FarFuture;
  }

  /**
   And in no other: of all runs within those years, the careful ones are exactly those that never
   reach a state with two agreements in conflict.
   */
  lemma RunCoversOnceIff(s: State, ops: seq<Op>)
    requires NoConflicts(s) && StartsNormal(s) && IdsOk(s) && forall k :: 0 <= k < |ops| ==> InRange(ops[k])
    ensures CarefulRun(s, ops) <==> forall k :: 0 <= k <= |ops| ==> NoConflicts(Run(s, ops[..k]))
  {
    hide NoConflicts, StartsNormal, IdsOk, Step, InRange, Spares;
    if CarefulRun(s, ops) {
      forall k | 0 <= k <= |ops| ensures NoConflicts(Run(s, ops[..k])) {
        forall j | 0 <= j < k ensures Careful(Run(s, ops[..k][..j]), ops[..k][j]) { assert ops[..k][..j] == ops[..j]; }
        RunCoversOnce(s, ops[..k]);
      }
    }
    if forall k :: 0 <= k <= |ops| ==> NoConflicts(Run(s, ops[..k])) {
      forall k | 0 <= k < |ops| ensures Careful(Run(s, ops[..k]), ops[k]) {
        assert ops[..k + 1][..k] == ops[..k];
        assert NoConflicts(Run(s, ops[..k + 1]));
        ConflictFreeStepSpares(Run(s, ops[..k]), ops[k]);
      }
    }
  }

  lemma ConflictFreeStepSpares(s: State, op: Op)
    requires NoConflicts(s) && NoConflicts(Step(s, op))
    ensures Spares(s, op)
  {
    hide NoConflicts, EmptiesAnOverlap;
    if op.OpDeleteVehicle? && op.vehicle in s.vehicles { DeleteVehicleSafeIff(s, op.vehicle); }
  }

  /** Deleting a vehicle from under a one-vehicle agreement bills its owner's other vehicles twice. */
  lemma DeletedVehicleWidensAgreement() returns (s: State, v: nat, day: nat)
    ensures NoConflicts(s) && IdsOk(s) && 0 in s.vehicles
    ensures var t := Apply(s, DeleteVehicle(s, 0)); Covers(t, 0, v, day) && Covers(t, 1, v, day)
  {
    var one := Agreement(7, 100, Monthly, 10, Some(40), {0}, false);
    var two := Agreement(7, 100, Monthly, 10, Some(40), {1}, false);
    s := State(map[0 := one, 1 := two], 2, map[0 := 7, 1 := 7], 2, []);
    v, day := 1, 20;
    assert one.vehicles - {0} == {};
    assert two.vehicles - {0} == {1};
  }
}
