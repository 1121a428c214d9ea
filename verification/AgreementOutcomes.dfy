/**
 When an agreement may be made, changed or deleted, and what it then is, said on the rows: which
 vehicles and days two agreements share, and which ends cut into a period that is invoiced.
 */
module AgreementOutcomes {
  import opened Calendar
  import opened PeriodKeys
  import opened Accrual
  import opened Agreements

  // ---------- whom a request gets in the way of ----------

  /** The day after the last, with the stand-in of the code for an open end. */
  function After(end: Option<nat>): nat {
    if end.Some? then end.value + 1 else FarFuture()
  }

  predicate ShareTime(start: nat, end: Option<nat>, other: Agreement) {
    start < After(other.end) && other.start < After(end)
  }

  /** A list without vehicles stands for all of them. */
  predicate ShareVehicle(a: set<nat>, b: set<nat>) {
    a == {} || b == {} || exists v :: v in a && v in b
  }

  /** A request that only makes new vehicles can clash with person-wide agreements alone. */
  predicate InTheWay(s: State, person: nat, exclude: Option<nat>, c: Candidate, o: nat) {
    && o in s.agreements && s.agreements[o].person == person && exclude != Some(o)
    && ShareTime(c.start, c.end, s.agreements[o])
    && (if c.vehicles == {} && c.news > 0 then s.agreements[o].vehicles == {} else ShareVehicle(c.vehicles, s.agreements[o].vehicles))
  }

  predicate OwnsAll(s: State, person: nat, vehicles: set<nat>) {
    forall v :: v in vehicles ==> v in s.vehicles && s.vehicles[v] == person
  }

  ghost predicate Free(s: State, person: nat, exclude: Option<nat>, c: Candidate) {
    forall o :: !InTheWay(s, person, exclude, c, o)
  }

  /** A request is valid if and only if the person owns the vehicles and no other agreement of theirs is in the way. */
  lemma ValidIff(s: State, person: nat, exclude: Option<nat>, c: Candidate)
    ensures Validate(s, person, exclude, c) ==
      if !OwnsAll(s, person, c.vehicles) then Some(ForeignVehicle)
      else if !Free(s, person, exclude, c) then Some(Overlap) else None
  {
    hide FarFuture;
    forall o | o in s.agreements
      ensures InTheWay(s, person, exclude, c, o) <==>
        && s.agreements[o].person == person && exclude != Some(o)
        && !(c.vehicles == {} && c.news > 0 && s.agreements[o].vehicles != {})
        && Conflict(CandidateOf(c, person), s.agreements[o])
    {
      assert ShareVehicle(c.vehicles, s.agreements[o].vehicles)
        <==> c.vehicles == {} || s.agreements[o].vehicles == {} || c.vehicles * s.agreements[o].vehicles != {} by {
        if c.vehicles * s.agreements[o].vehicles != {} {
          var v :| v in c.vehicles * s.agreements[o].vehicles;
        }
        if v :| v in c.vehicles && v in s.agreements[o].vehicles { assert v in c.vehicles * s.agreements[o].vehicles; }
      }
    }
    hide InTheWay, Conflict;
  }

  // ---------- making one ----------

  predicate NewVehicle(s: State, news: nat, v: nat) {
    s.nextVehicle <= v < s.nextVehicle + news
  }

  /** The new vehicles belong to the person; all others are as they were. */
  ghost predicate AddsVehicles(s: State, t: State, person: nat, news: nat) {
    && (forall v :: v in t.vehicles <==> v in s.vehicles || NewVehicle(s, news, v))
    && (forall v :: v in s.vehicles ==> t.vehicles[v] == s.vehicles[v])
    && (forall v :: NewVehicle(s, news, v) && v !in s.vehicles ==> t.vehicles[v] == person)
    && t.nextVehicle == s.nextVehicle + news
  }

  /** The row a request asks for. */
  ghost predicate IsAskedFor(s: State, a: Agreement, person: nat, c: Candidate) {
    && a.person == person && a.amount == c.amount && a.period == c.period && a.start == c.start && a.end == c.end
    && (forall v :: v in a.vehicles <==> v in c.vehicles || NewVehicle(s, c.news, v))
  }

  /** An agreement is made exactly from a valid request, as asked for, and nothing else changes. */
  lemma MadeIff(s: State, person: nat, c: Candidate)
    requires IdsOk(s)
    ensures var o := Create(s, person, c);
      && (o.Committed? <==> OwnsAll(s, person, c.vehicles) && Free(s, person, None, c))
      && (o.Committed? ==>
            && s.nextAgreement in o.s.agreements && IsAskedFor(s, o.s.agreements[s.nextAgreement], person, c)
            && !o.s.agreements[s.nextAgreement].settled
            && o.s.agreements == s.agreements[s.nextAgreement := o.s.agreements[s.nextAgreement]]
            && s.nextAgreement !in s.agreements && o.s.nextAgreement == s.nextAgreement + 1
            && AddsVehicles(s, o.s, person, c.news) && o.s.rows == s.rows)
  {
    ValidIff(s, person, None, c);
    hide Validate, Free, OwnsAll;
  }

  // ---------- changing one ----------

  predicate OnInvoice(s: State, id: nat, k: nat) {
    k < |s.rows| && s.rows[k].agreement == id
  }

  /** The invoiced period reaches past the day. */
  predicate ReachesPast(s: State, id: nat, k: nat, day: nat)
    requires id in s.agreements && k < |s.rows|
  {
    day + 1 < PeriodStart(s.agreements[id].period, s.rows[k].index + 1)
  }

  /** The change alters what the invoiced period accrued, or moves an end that lies inside it, or puts one there. */
  predicate Touches(s: State, id: nat, c: Candidate, k: nat)
    requires id in s.agreements && k < |s.rows|
  {
    var end := s.agreements[id].end;
    || Redefines(s, id, c)
    || (c.end.Some? && ReachesPast(s, id, k, c.end.value))
    || (end.Some? && ReachesPast(s, id, k, end.value) && (c.end.None? || c.end.value > end.value))
  }

  ghost predicate TouchesInvoiced(s: State, id: nat, c: Candidate)
    requires id in s.agreements
  {
    exists k: nat :: OnInvoice(s, id, k) && Touches(s, id, c, k)
  }

  /** Amount, period, start or vehicles change. */
  predicate Redefines(s: State, id: nat, c: Candidate)
    requires id in s.agreements
  {
    var a := s.agreements[id];
    a.amount != c.amount || a.period != c.period || a.start != c.start || c.news > 0 || a.vehicles != c.vehicles
  }

  lemma ListChanges(s: State, id: nat, c: Candidate)
    requires IdsOk(s) && id in s.agreements
    ensures s.agreements[id].vehicles != c.vehicles + Fresh(s.nextVehicle, c.news) <==> c.news > 0 || s.agreements[id].vehicles != c.vehicles
  {
    if c.news > 0 {
      assert s.nextVehicle in Fresh(s.nextVehicle, c.news) && s.nextVehicle !in s.agreements[id].vehicles;
    } else {
      assert c.vehicles + Fresh(s.nextVehicle, c.news) == c.vehicles;
    }
  }

  /** The guard against extending fires exactly when an invoiced period was cut by the old end and the new one is later. */
  lemma ExtendsIff(s: State, id: nat, wanted: Option<nat>)
    requires RowsOk(s) && id in s.agreements
    ensures var a := s.agreements[id];
      ExtendsInvoicedPart(s.rows, id, a.end, wanted, a.period) <==>
        && a.end.Some? && (wanted.None? || wanted.value > a.end.value)
        && exists k: nat :: OnInvoice(s, id, k) && ReachesPast(s, id, k, a.end.value)
  {
    hide PeriodKey, PeriodCost, PeriodStart, PeriodOf;
    var a := s.agreements[id];
    if a.end.Some? {
      var i := PeriodOf(a.period, a.end.value);
      if k: nat :| OnInvoice(s, id, k) && ReachesPast(s, id, k, a.end.value) {
        FinalPartIsBilled(s, id, k);
        EndsInside(s, id, k);
      }
      if Billed(s.rows, id, PeriodKey(a.period, i)) && a.end.value + 1 != PeriodStart(a.period, i + 1) {
        var k: nat :| k < |s.rows| && s.rows[k].agreement == id && s.rows[k].key == PeriodKey(a.period, i);
        assert RowOk(s.agreements, s.rows[k]);
        KeyInjective(a.period, i, s.rows[k].index);
        assert OnInvoice(s, id, k) && ReachesPast(s, id, k, a.end.value);
      }
    }
  }

  lemma EndsInside(s: State, id: nat, k: nat)
    requires RowsOk(s) && id in s.agreements && s.agreements[id].end.Some? && OnInvoice(s, id, k)
    requires ReachesPast(s, id, k, s.agreements[id].end.value)
    ensures PeriodOf(s.agreements[id].period, s.agreements[id].end.value) == s.rows[k].index
  {
    hide PeriodKey, PeriodCost, PeriodStart, PeriodOf;
    assert RowOk(s.agreements, s.rows[k]);
    PeriodOfUnique(s.agreements[id].period, s.agreements[id].end.value, s.rows[k].index);
  }

  /**
   An agreement is changed if and only if the request is valid, a settled one keeps what it is, and no
   invoiced period is touched; it then is as asked for and nothing else changes.
   */
  lemma ChangedIff(s: State, id: nat, c: Candidate)
    requires RowsOk(s) && IdsOk(s) && id in s.agreements
    ensures var a, o := s.agreements[id], Update(s, id, c);
      && (o.Committed? <==>
            && OwnsAll(s, a.person, c.vehicles) && Free(s, a.person, Some(id), c)
            && !(a.settled && (Redefines(s, id, c) || a.end != c.end)) && !TouchesInvoiced(s, id, c))
      && (o.Committed? ==>
            && id in o.s.agreements && IsAskedFor(s, o.s.agreements[id], a.person, c) && o.s.agreements[id].settled == a.settled
            && o.s.agreements == s.agreements[id := o.s.agreements[id]]
            && AddsVehicles(s, o.s, a.person, c.news) && o.s.rows == s.rows && o.s.nextAgreement == s.nextAgreement)
  {
    var a := s.agreements[id];
    ValidIff(s, a.person, Some(id), c);
    ListChanges(s, id, c);
    TouchesIff(s, id, c);
    hide Validate, Free, OwnsAll, RowOk, Retracts, ExtendsInvoicedPart, TouchesInvoiced, AnyBilled;
  }

  lemma InvoicedIff(s: State, id: nat)
    ensures AnyBilled(s.rows, id) <==> exists k: nat :: OnInvoice(s, id, k)
  {
    if AnyBilled(s.rows, id) {
      var k: nat :| k < |s.rows| && s.rows[k].agreement == id;
      assert OnInvoice(s, id, k);
    }
  }

  lemma RetractsWhenReached(s: State, id: nat, newEnd: Option<nat>)
    requires RowsOk(s) && id in s.agreements
    ensures Retracts(s.rows, id, newEnd)
      <==> newEnd.Some? && exists k: nat :: OnInvoice(s, id, k) && ReachesPast(s, id, k, newEnd.value)
  {
    hide Retracts, PeriodStart, RowOk;
    if newEnd.Some? {
      RetractsIff(s, id, newEnd.value);
      if CutsIntoBilled(s, id, newEnd.value) {
        var k: nat :| k < |s.rows| && s.rows[k].agreement == id
                      && newEnd.value + 1 < PeriodStart(s.agreements[id].period, s.rows[k].index + 1);
        assert OnInvoice(s, id, k) && ReachesPast(s, id, k, newEnd.value);
      }
    } else {
      OpenEndNeverRetracts(s.rows, id);
    }
  }

  lemma TouchesIff(s: State, id: nat, c: Candidate)
    requires RowsOk(s) && id in s.agreements
    ensures var a := s.agreements[id];
      TouchesInvoiced(s, id, c) <==>
        || ExtendsInvoicedPart(s.rows, id, a.end, c.end, a.period)
        || ((Redefines(s, id, c) || Retracts(s.rows, id, c.end)) && AnyBilled(s.rows, id))
  {
    hide RowsOk, Retracts, ExtendsInvoicedPart, Redefines, ReachesPast, AnyBilled;
    ExtendsIff(s, id, c.end);
    RetractsWhenReached(s, id, c.end);
    InvoicedIff(s, id);
    if k: nat :| OnInvoice(s, id, k) { assert Redefines(s, id, c) ==> Touches(s, id, c, k); }
    if c.end.Some? {
      if k: nat :| OnInvoice(s, id, k) && ReachesPast(s, id, k, c.end.value) { assert Touches(s, id, c, k); }
    }
    if s.agreements[id].end.Some? {
      if k: nat :| OnInvoice(s, id, k) && ReachesPast(s, id, k, s.agreements[id].end.value) {
        assert c.end.None? || c.end.value > s.agreements[id].end.value ==> Touches(s, id, c, k);
      }
    }
  }

  // ---------- deleting one ----------

  /** A vehicle that goes with the agreement: it lists it, and no other does. */
  predicate GoesAlong(s: State, id: nat, deleteVehicles: bool, v: nat)
    requires id in s.agreements
  {
    deleteVehicles && v in s.agreements[id].vehicles && forall o :: o in s.agreements && o != id ==> v !in s.agreements[o].vehicles
  }

  /** An agreement is deleted if and only if it is neither settled nor invoiced, with the vehicles only it lists if so asked. */
  lemma DeletedIff(s: State, id: nat, deleteVehicles: bool)
    requires id in s.agreements
    ensures var o := Delete(s, id, deleteVehicles);
      && (o.Committed? <==> !s.agreements[id].settled && forall k: nat :: !OnInvoice(s, id, k))
      && (o.Committed? ==>
            && o.s.agreements == s.agreements - {id} && o.s.rows == s.rows
            && (forall v :: v in o.s.vehicles <==> v in s.vehicles && !GoesAlong(s, id, deleteVehicles, v))
            && (forall v :: v in o.s.vehicles ==> o.s.vehicles[v] == s.vehicles[v]))
  {
    InvoicedIff(s, id);
    forall o | o in s.agreements && o != id
      ensures s.agreements[o].(vehicles := s.agreements[o].vehicles - OwnVehicles(s, id)) == s.agreements[o]
    {
      assert s.agreements[o].vehicles - OwnVehicles(s, id) == s.agreements[o].vehicles;
    }
    hide AnyBilled, OnInvoice;
    var t := Delete(s, id, deleteVehicles);
    if t.Committed? { assert t.s.agreements == s.agreements - {id}; }
  }

  /** Deleting a vehicle takes it off every list, and moving or adding one touches no agreement. */
  lemma VehicleLeavesLists(s: State, v: nat)
    ensures var o := DeleteVehicle(s, v);
      && (o.Committed? <==> v in s.vehicles)
      && (o.Committed? ==>
            && o.s.vehicles == s.vehicles - {v} && o.s.rows == s.rows && o.s.agreements.Keys == s.agreements.Keys
            && forall id :: id in s.agreements ==> o.s.agreements[id] == s.agreements[id].(vehicles := s.agreements[id].vehicles - {v}))
  {
  }
}
