/**
 Agreements as the handlers change them: rows of two tables, validated and written under the
 person's lock. Each method does exactly what its transaction function says.
 */
module AgreementBooks {
  import opened Calendar
  import opened PeriodKeys
  import opened Accrual
  import opened OwedLines
  import opened Agreements

  function ErrorOf(o: Outcome): Option<Error> {
    match o
    case Committed(_) => None
    case RolledBack(e) => Some(e)
  }

  /** What a completed period of an agreement is invoiced with is what the freeze protects. */
  lemma InvoicedCostIsPeriodCost(a: Agreement, asOf: nat, k: nat)
    requires KeysParse(TermsOf(a), asOf) && k < |Elapsed(TermsOf(a), asOf)| && Elapsed(TermsOf(a), asOf)[k].complete
    ensures var per := Elapsed(TermsOf(a), asOf)[k];
      per.cost == PeriodCost(a, per.index) && RunsIn(a, per.index) && PeriodUntil(a, per.index) <= asOf
  {
    var t := TermsOf(a);
    hide PeriodStart, PeriodOf, SliceCents, PeriodLength, PeriodKey, YearOf, CompletedThrough;
    var sl := CompletedSlice(t, asOf, k);
    SubPeriodsNonEmpty(t.period, t.start, WindowEnd(t, asOf + 1), k);
    hide SubPeriods;
    assert sl.from == PeriodFromDay(a, sl.index) && sl.to == PeriodUntil(a, sl.index);
  }

  class AgreementBook {
    var agreements: map<nat, Agreement>
    var nextAgreement: nat
    var vehicles: map<nat, nat>
    var nextVehicle: nat
    var rows: seq<Row>

    function Snapshot(): State
      reads this
    {
      State(agreements, nextAgreement, vehicles, nextVehicle, rows)
    }

    predicate Ok()
      reads this
    {
      RowsOk(Snapshot()) && IdsOk(Snapshot())
    }

    constructor ()
      ensures Ok() && Snapshot() == Empty()
    {
      agreements, nextAgreement, vehicles, nextVehicle, rows := map[], 0, map[], 0, [];
    }

    /** An agreement of the person the candidate has to be compared with. */
    predicate Considered(o: nat, person: nat, exclude: Option<nat>, c: Candidate)
      requires o in agreements
      reads this
    {
      && agreements[o].person == person && exclude != Some(o)
      && !(c.vehicles == {} && c.news > 0 && agreements[o].vehicles != {})
    }

    /** Ownership and overlap, agreement by agreement in id order. */
    method ValidateAgreementTx(person: nat, exclude: Option<nat>, c: Candidate) returns (error: Option<Error>)
      requires IdsOk(Snapshot())
      ensures error == Validate(Snapshot(), person, exclude, c)
    {
      hide Conflict;
      if !(forall v :: v in c.vehicles ==> v in vehicles && vehicles[v] == person) { return Some(ForeignVehicle); }
      var cand := CandidateOf(c, person);
      for id := 0 to nextAgreement
        invariant forall o :: 0 <= o < id && o in agreements && Considered(o, person, exclude, c) ==>
          !Conflict(cand, agreements[o])
      {
        if id !in agreements || agreements[id].person != person || exclude == Some(id) { continue; }
        var other := agreements[id];
        if c.vehicles == {} && c.news > 0 && other.vehicles != {} { continue; }
        assert Considered(id, person, exclude, c);
        if Conflict(cand, other) { return Some(Overlap); }
      }
      return None;
    }

    /** Creates the inline vehicles, all owned by the person. */
    method CreateVehicles(person: nat, n: nat) returns (created: set<nat>)
      requires IdsOk(Snapshot())
      modifies this`vehicles, this`nextVehicle
      ensures Snapshot() == AddVehicles(old(Snapshot()), person, n) && created == Fresh(old(nextVehicle), n)
    {
      hide IdsOk, AddVehicles, Fresh;
      created := {};
      NoMoreVehicles(Snapshot(), person);
      for k := 0 to n
        invariant created == Fresh(old(nextVehicle), k) && Snapshot() == AddVehicles(old(Snapshot()), person, k)
      {
        OneMoreVehicle(old(Snapshot()), person, k);
        created := created + {nextVehicle};
        vehicles := vehicles[nextVehicle := person];
        nextVehicle := nextVehicle + 1;
      }
    }

    static lemma NoMoreVehicles(s: State, person: nat)
      ensures AddVehicles(s, person, 0) == s && Fresh(s.nextVehicle, 0) == {}
    {
    }

    static lemma OneMoreVehicle(s: State, person: nat, k: nat)
      requires IdsOk(s)
      ensures var t := AddVehicles(s, person, k);
        && t.nextVehicle == s.nextVehicle + k
        && AddVehicles(s, person, k + 1) == t.(vehicles := t.vehicles[t.nextVehicle := person], nextVehicle := t.nextVehicle + 1)
        && Fresh(s.nextVehicle, k + 1) == Fresh(s.nextVehicle, k) + {t.nextVehicle}
    {
      var t := AddVehicles(s, person, k);
      assert AddVehicles(s, person, k + 1).vehicles == t.vehicles[t.nextVehicle := person];
    }

    method CreateAgreement(person: nat, c: Candidate) returns (error: Option<Error>)
      requires Ok() && Parsed(OpCreate(person, c))
      modifies this
      ensures Ok() && Snapshot() == Apply(old(Snapshot()), Create(old(Snapshot()), person, c))
      ensures error == ErrorOf(Create(old(Snapshot()), person, c))
    {
      hide Validate, RowOk, Fresh, RowsOk, IdsOk;
      StepKeepsRows(Snapshot(), OpCreate(person, c));
      StepKeepsIds(Snapshot(), OpCreate(person, c));
      error := ValidateAgreementTx(person, None, c);
      if error.Some? { return; }
      var created := CreateVehicles(person, c.news);
      agreements := agreements[nextAgreement := CandidateOf(c, person).(vehicles := c.vehicles + created)];
      nextAgreement := nextAgreement + 1;
    }

    method UpdateAgreement(id: nat, c: Candidate) returns (error: Option<Error>)
      requires Ok() && Parsed(OpUpdate(id, c))
      modifies this
      ensures Ok() && Snapshot() == Apply(old(Snapshot()), Update(old(Snapshot()), id, c))
      ensures error == ErrorOf(Update(old(Snapshot()), id, c))
    {
      hide Validate, RowOk, Fresh, RowsOk, IdsOk, Retracts, ExtendsInvoicedPart, AnyBilled, AddVehicles;
      StepKeepsRows(Snapshot(), OpUpdate(id, c));
      StepKeepsIds(Snapshot(), OpUpdate(id, c));
      if id !in agreements { return Some(NotFound); }
      var prior := agreements[id];
      error := ValidateAgreementTx(prior.person, Some(id), c);
      if error.Some? { return; }
      var vehicleIds := c.vehicles + Fresh(nextVehicle, c.news);
      var defined := prior.period != c.period || prior.start != c.start || prior.amount != c.amount || prior.vehicles != vehicleIds;
      if prior.settled && (defined || prior.end != c.end) { return Some(Settled); }
      if ExtendsInvoicedPart(rows, id, prior.end, c.end, prior.period) { return Some(Invoiced); }
      if defined || Retracts(rows, id, c.end) {
        if AnyBilled(rows, id) { return Some(Invoiced); }
      }
      var created := CreateVehicles(prior.person, c.news);
      AddedVehiclesOnly(old(Snapshot()), prior.person, c.news);
      agreements := agreements[id := CandidateOf(c, prior.person).(vehicles := vehicleIds, settled := prior.settled)];
    }

    static lemma AddedVehiclesOnly(s: State, person: nat, n: nat)
      ensures var t := AddVehicles(s, person, n); t.agreements == s.agreements && t.rows == s.rows && t.nextAgreement == s.nextAgreement
    {
    }

    method DeleteAgreement(id: nat, deleteVehicles: bool) returns (error: Option<Error>)
      requires Ok()
      modifies this
      ensures Ok() && Snapshot() == Apply(old(Snapshot()), Delete(old(Snapshot()), id, deleteVehicles))
      ensures error == ErrorOf(Delete(old(Snapshot()), id, deleteVehicles))
      ensures forall o :: o in old(agreements) && o != id ==> o in agreements && agreements[o] == old(agreements)[o]
    {
      hide RowOk, RowsOk, IdsOk, AnyBilled, OwnVehicles;
      StepKeepsRows(Snapshot(), OpDelete(id, deleteVehicles));
      StepKeepsIds(Snapshot(), OpDelete(id, deleteVehicles));
      forall o | id in agreements && o in agreements && o != id
        ensures o in Apply(Snapshot(), Delete(Snapshot(), id, deleteVehicles)).agreements
        ensures Apply(Snapshot(), Delete(Snapshot(), id, deleteVehicles)).agreements[o] == agreements[o]
      {
        DeleteLeavesOthersAlone(Snapshot(), id, deleteVehicles, o);
      }
      if id !in agreements { return Some(NotFound); }
      if agreements[id].settled { return Some(Settled); }
      if AnyBilled(rows, id) { return Some(Invoiced); }
      if deleteVehicles {
        var gone := OwnVehicles(Snapshot(), id);
        vehicles := vehicles - gone;
        agreements := map o | o in agreements :: agreements[o].(vehicles := agreements[o].vehicles - gone);
      }
      agreements := agreements - {id};
      return None;
    }
  }
}
