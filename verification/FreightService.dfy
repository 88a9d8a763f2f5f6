/**
 The repositories and handlers as code that updates the tables statement by statement. Each method
 is proved to have the effect of the step function of its handler.
 */
module FreightService {
  import opened Wrappers
  import opened Lifecycle
  import opened LifecycleInvariants

  class Service {
    var cargos: map<Id, Cargo>
    var offers: map<Id, Offer>
    var trips: map<Id, Trip>
    var recs: map<(Id, Id), Rec>
    var drivers: map<Id, Option<Id>>
    ghost var log: seq<Entry>

    ghost function Tables(): World
      reads this
    {
      World(cargos, offers, trips, recs, drivers, log)
    }

    constructor ()
      ensures Tables() == EMPTY
    {
      cargos, offers, trips, recs, drivers, log := map[], map[], map[], map[], map[], [];
    }

    /* ---------- cargo.Repo ---------- */

    function GetCargo(c: Id): (row: Option<Cargo>)
      reads this
      ensures row.Some? <==> Live(Tables(), c)
      ensures row.Some? ==> row.value == cargos[c]
    {
      if c in cargos && !cargos[c].deleted then Some(cargos[c]) else None
    }

    method UpdateStatus(c: Id, from: set<CargoStatus>, s: CargoStatus) returns (rows: nat)
      modifies this`cargos, this`log
      ensures Tables() == WriteStatusFrom(old(Tables()), c, from, s)
      ensures rows == if Live(old(Tables()), c) && old(cargos)[c].status in from then 1 else 0
    {
      rows := 0;
      if c in cargos && !cargos[c].deleted && cargos[c].status in from {
        cargos := cargos[c := cargos[c].(status := s)];
        log := log + [StatusWritten(c, s)];
        rows := 1;
      }
    }

    method SetStatus(c: Id, newStatus: CargoStatus) returns (ok: bool)
      modifies this`cargos, this`log
      ensures Tables() == StepPatchCargoStatus(old(Tables()), c, newStatus).world
      ensures ok == StepPatchCargoStatus(old(Tables()), c, newStatus).ok
    {
      var cur := GetCargo(c);
      if cur.None? {
        return false;
      }
      var next := CargoNext(cur.value.status);
      for i := 0 to |next|
        invariant Tables() == old(Tables())
        invariant newStatus !in next[..i]
      {
        if next[i] == newStatus {
          var _ := UpdateStatus(c, {cur.value.status}, newStatus);
          return true;
        }
      }
      return false;
    }

    method ModerationAccept(c: Id, wantCompany: bool) returns (ok: bool)
      modifies this`cargos, this`log
      ensures Tables() == StepModerationAccept(old(Tables()), c, wantCompany).world
      ensures ok == StepModerationAccept(old(Tables()), c, wantCompany).ok
    {
      var obj := GetCargo(c);
      if obj.None? || obj.value.status != PendingModeration {
        return false;
      }
      var company := wantCompany;
      if obj.value.creator.Some? && obj.value.creator.value.Dispatcher? {
        company := false;
      }
      var status := SearchingAll;
      if company {
        status := SearchingCompany;
      }
      var rows := UpdateStatus(c, {PendingModeration}, status);
      ok := rows != 0;
    }

    method ModerationReject(c: Id, blankReason: bool) returns (ok: bool)
      modifies this`cargos, this`log
      ensures Tables() == StepModerationReject(old(Tables()), c, blankReason).world
      ensures ok == StepModerationReject(old(Tables()), c, blankReason).ok
    {
      if blankReason {
        return false;
      }
      var rows := UpdateStatus(c, {PendingModeration}, Refused);
      ok := rows != 0;
    }

    /** `limit` is FreelanceDispatcherCargoLimit; a limit that is not positive is none. */
    method CreateCargo(c: Id, creator: Option<Creator>, company: Option<Id>, limit: int) returns (ok: bool)
      modifies this`cargos
      ensures Tables() == StepCreateCargo(old(Tables()), c, creator, company, limit).world
      ensures ok == StepCreateCargo(old(Tables()), c, creator, company, limit).ok
    {
      if creator.Some? && creator.value.Dispatcher? && limit > 0 {
        var count := |CreatedBy(cargos, creator.value.id)|;
        if count >= limit {
          return false;
        }
      }
      var createdBy := creator;
      if createdBy.None? && company.Some? {
        createdBy := Some(Company(company.value));
      }
      if c in cargos {
        return false;
      }
      cargos := cargos[c := Cargo(PendingModeration, false, createdBy, company)];
      return true;
    }

    method DeleteCargo(c: Id)
      modifies this`cargos
      ensures Tables() == StepDeleteCargo(old(Tables()), c).world
    {
      if c in cargos && !cargos[c].deleted {
        cargos := cargos[c := cargos[c].(deleted := true)];
      }
    }

    method InsertOffer(o: Id, c: Id, carrier: Id) returns (ok: bool)
      modifies this`offers
      ensures ok <==> o !in old(offers)
      ensures offers == if ok then old(offers)[o := Offer(c, carrier, OfferPending)] else old(offers)
    {
      if o in offers {
        return false;
      }
      offers := offers[o := Offer(c, carrier, OfferPending)];
      return true;
    }

    /** The accepting transaction: offer, cargo, rivals, in that order. */
    method AcceptOfferTx(o: Id) returns (r: Option<(Id, Id)>)
      modifies this`offers, this`cargos, this`log
      ensures r.Some? <==> OfferIs(old(Tables()), o, OfferPending)
      ensures r.None? ==> Tables() == old(Tables())
      ensures r.Some? ==> r.value == (old(offers)[o].cargo, old(offers)[o].carrier)
      ensures r.Some? ==> Tables() == AcceptTx(old(Tables()), o)
    {
      if o !in offers || offers[o].status != OfferPending {
        return None;
      }
      var c, carrier := offers[o].cargo, offers[o].carrier;
      offers := offers[o := offers[o].(status := OfferAccepted)];
      log := log + [OfferTaken(c, o)];
      if c in cargos && !cargos[c].deleted {
        cargos := cargos[c := cargos[c].(status := Assigned)];
        log := log + [StatusWritten(c, Assigned)];
      }
      offers := map p | p in offers ::
        if offers[p].cargo == c && p != o && offers[p].status == OfferPending
        then offers[p].(status := OfferRejected) else offers[p];
      assert offers == OffersAfterAccept(old(offers), o);
      return Some((c, carrier));
    }

    /* ---------- trips.Repo ---------- */

    method InsertTrip(t: Id, c: Id, o: Id) returns (ok: bool)
      modifies this`trips
      ensures ok <==> t !in old(trips)
      ensures trips == if ok then old(trips)[t := Trip(c, o, None, PendingDriver)] else old(trips)
    {
      if t in trips {
        return false;
      }
      trips := trips[t := Trip(c, o, None, PendingDriver)];
      return true;
    }

    method AssignDriver(t: Id, driver: Id) returns (ok: bool)
      modifies this`trips
      ensures Tables() == StepAssignDriver(old(Tables()), t, driver).world
      ensures ok == StepAssignDriver(old(Tables()), t, driver).ok
    {
      if t !in trips || trips[t].status != PendingDriver || driver !in drivers {
        return false;
      }
      trips := trips[t := trips[t].(driver := Some(driver))];
      return true;
    }

    method ConfirmDriver(t: Id, driver: Id) returns (ok: bool)
      modifies this`trips, this`log
      ensures Tables() == StepConfirmDriver(old(Tables()), t, driver).world
      ensures ok == StepConfirmDriver(old(Tables()), t, driver).ok
    {
      if t !in trips || trips[t].driver != Some(driver) || trips[t].status != PendingDriver {
        return false;
      }
      trips := trips[t := trips[t].(status := TripAssigned)];
      log := log + [DriverConfirmed(t, driver)];
      return true;
    }

    method RejectDriver(t: Id, driver: Id) returns (ok: bool)
      modifies this`trips
      ensures Tables() == StepRejectDriver(old(Tables()), t, driver).world
      ensures ok == StepRejectDriver(old(Tables()), t, driver).ok
    {
      if t !in trips || trips[t].driver != Some(driver) || trips[t].status != PendingDriver {
        return false;
      }
      trips := trips[t := trips[t].(driver := None)];
      return true;
    }

    method SetTripStatus(t: Id, newStatus: TripStatus) returns (ok: bool)
      modifies this`trips
      ensures ok <==> t in old(trips) && newStatus in TripNext(old(trips)[t].status)
      ensures trips == if ok then old(trips)[t := old(trips)[t].(status := newStatus)] else old(trips)
    {
      if t !in trips {
        return false;
      }
      var allowed := TripNext(trips[t].status);
      for i := 0 to |allowed|
        invariant trips == old(trips)
        invariant newStatus !in allowed[..i]
      {
        if allowed[i] == newStatus {
          trips := trips[t := trips[t].(status := newStatus)];
          return true;
        }
      }
      return false;
    }

    /* ---------- handlers ---------- */

    method CreateOffer(o: Id, c: Id, carrier: Id) returns (ok: bool)
      modifies this`offers, this`log
      ensures Tables() == StepCreateOffer(old(Tables()), o, c, carrier).world
      ensures ok == StepCreateOffer(old(Tables()), o, c, carrier).ok
    {
      var obj := GetCargo(c);
      if obj.None? || !IsSearching(obj.value.status) {
        return false;
      }
      if obj.value.status == SearchingCompany {
        if obj.value.company.None? {
          return false;
        }
        if carrier !in drivers || drivers[carrier].None? || drivers[carrier].value != obj.value.company.value {
          return false;
        }
      }
      ok := InsertOffer(o, c, carrier);
      if ok {
        log := log + [OfferMade(c, carrier, CompanyOf(Tables(), carrier), cargos[c].company)];
      }
    }

    method AcceptOffer(o: Id, newTrip: Id) returns (ok: bool)
      modifies this`offers, this`cargos, this`trips, this`log
      ensures Tables() == StepAcceptOffer(old(Tables()), o, newTrip).world
      ensures ok == StepAcceptOffer(old(Tables()), o, newTrip).ok
    {
      var accepted := AcceptOfferTx(o);
      if accepted.None? {
        return false;
      }
      var created := InsertTrip(newTrip, accepted.value.0, o);
      if created {
        var _ := AssignDriver(newTrip, accepted.value.1);
      }
      return true;
    }

    method RejectOffer(o: Id, dispatcher: Id) returns (ok: bool)
      modifies this`offers
      ensures Tables() == StepRejectOffer(old(Tables()), o, dispatcher).world
      ensures ok == StepRejectOffer(old(Tables()), o, dispatcher).ok
    {
      if o !in offers {
        return false;
      }
      var obj := GetCargo(offers[o].cargo);
      if obj.None? || obj.value.creator != Some(Dispatcher(dispatcher)) {
        return false;
      }
      if offers[o].status != OfferPending {
        return false;
      }
      offers := offers[o := offers[o].(status := OfferRejected)];
      return true;
    }

    method Recommend(c: Id, driver: Id, dispatcher: Id) returns (ok: bool)
      modifies this`recs
      ensures Tables() == StepRecommend(old(Tables()), c, driver, dispatcher).world
      ensures ok == StepRecommend(old(Tables()), c, driver, dispatcher).ok
    {
      var obj := GetCargo(c);
      if obj.None? || !IsSearching(obj.value.status) {
        return false;
      }
      if obj.value.creator != Some(Dispatcher(dispatcher)) || driver !in drivers {
        return false;
      }
      recs := recs[(c, driver) := Rec(dispatcher, RecPending)];
      return true;
    }

    method SetRecStatus(c: Id, driver: Id, s: RecStatus) returns (ok: bool)
      modifies this`recs
      ensures ok <==> RecIsPending(old(Tables()), c, driver)
      ensures Tables() == if ok then SetRec(old(Tables()), c, driver, s) else old(Tables())
    {
      if (c, driver) !in recs || recs[(c, driver)].status != RecPending {
        return false;
      }
      recs := recs[(c, driver) := recs[(c, driver)].(status := s)];
      return true;
    }

    method AcceptRecommendation(c: Id, driver: Id, newOffer: Id, newTrip: Id) returns (ok: bool)
      modifies this`offers, this`cargos, this`trips, this`recs, this`log
      ensures Tables() == StepAcceptRecommendation(old(Tables()), c, driver, newOffer, newTrip).world
      ensures ok == StepAcceptRecommendation(old(Tables()), c, driver, newOffer, newTrip).ok
    {
      if (c, driver) !in recs || recs[(c, driver)].status != RecPending {
        return false;
      }
      var obj := GetCargo(c);
      if obj.None? || !IsSearching(obj.value.status) {
        return false;
      }
      var inserted := InsertOffer(newOffer, c, driver);
      if !inserted {
        return false;
      }
      var accepted := AcceptOfferTx(newOffer);
      var _ := SetRecStatus(c, driver, RecAccepted);
      var created := InsertTrip(newTrip, c, newOffer);
      if created {
        var _ := AssignDriver(newTrip, accepted.value.1);
      }
      return true;
    }

    method PatchTripStatus(t: Id, driver: Id, newStatus: TripStatus) returns (ok: bool)
      modifies this`trips, this`cargos, this`log
      ensures Tables() == StepPatchTripStatus(old(Tables()), t, driver, newStatus).world
      ensures ok == StepPatchTripStatus(old(Tables()), t, driver, newStatus).ok
    {
      if t !in trips || trips[t].driver != Some(driver) {
        return false;
      }
      if newStatus == PendingDriver || newStatus == TripAssigned {
        return false;
      }
      var c := trips[t].cargo;
      var moved := SetTripStatus(t, newStatus);
      if !moved {
        return false;
      }
      if newStatus == Loading {
        var _ := UpdateStatus(c, {Assigned}, InProgress);
      } else if newStatus == TripCompleted {
        var _ := UpdateStatus(c, {InProgress, InTransit}, Completed);
      }
      return true;
    }

    method PutDriver(driver: Id, company: Option<Id>)
      modifies this`drivers
      ensures Tables() == StepPutDriver(old(Tables()), driver, company).world
    {
      drivers := drivers[driver := company];
    }

    method RemoveDriver(driver: Id) returns (ok: bool)
      modifies this`drivers, this`recs
      ensures Tables() == StepRemoveDriver(old(Tables()), driver).world
      ensures ok == StepRemoveDriver(old(Tables()), driver).ok
    {
      if driver !in drivers || exists t | t in trips :: trips[t].driver == Some(driver) {
        return false;
      }
      drivers := drivers - {driver};
      recs := map k | k in recs && k.1 != driver :: recs[k];
      return true;
    }

    method CargoRequest(e: Event) returns (ok: bool)
      requires e.CreateCargo? || e.PatchCargoStatus? || e.ModerationAccept? || e.ModerationReject? || e.DeleteCargo?
            || e.CreateOffer? || e.AcceptOffer? || e.RejectOffer?
      modifies this
      ensures Tables() == Step(old(Tables()), e).world
      ensures ok == Step(old(Tables()), e).ok
    {
      match e {
      case CreateCargo(c, creator, company, limit) => ok := CreateCargo(c, creator, company, limit);
      case PatchCargoStatus(c, s) => ok := SetStatus(c, s);
      case ModerationAccept(c, wantCompany) => ok := ModerationAccept(c, wantCompany);
      case ModerationReject(c, blank) => ok := ModerationReject(c, blank);
      case DeleteCargo(c) => DeleteCargo(c); ok := true;
      case CreateOffer(o, c, carrier) => ok := CreateOffer(o, c, carrier);
      case AcceptOffer(o, t) => ok := AcceptOffer(o, t);
      case RejectOffer(o, d) => ok := RejectOffer(o, d);
      }
    }

    method DriverRequest(e: Event) returns (ok: bool)
      requires e.Recommend? || e.AcceptRecommendation? || e.DeclineRecommendation? || e.AssignDriver?
            || e.ConfirmDriver? || e.RejectDriver? || e.PatchTripStatus?
      modifies this
      ensures Tables() == Step(old(Tables()), e).world
      ensures ok == Step(old(Tables()), e).ok
    {
      match e {
      case Recommend(c, driver, d) => ok := Recommend(c, driver, d);
      case AcceptRecommendation(c, driver, o, t) => ok := AcceptRecommendation(c, driver, o, t);
      case DeclineRecommendation(c, driver) => ok := SetRecStatus(c, driver, RecDeclined);
      case AssignDriver(t, driver) => ok := AssignDriver(t, driver);
      case ConfirmDriver(t, driver) => ok := ConfirmDriver(t, driver);
      case RejectDriver(t, driver) => ok := RejectDriver(t, driver);
      case PatchTripStatus(t, driver, s) => ok := PatchTripStatus(t, driver, s);
      }
    }

    method DriverTableRequest(e: Event) returns (ok: bool)
      requires e.PutDriver? || e.RemoveDriver?
      modifies this
      ensures Tables() == Step(old(Tables()), e).world
      ensures ok == Step(old(Tables()), e).ok
    {
      match e {
      case PutDriver(driver, company) => PutDriver(driver, company); ok := true;
      case RemoveDriver(driver) => ok := RemoveDriver(driver);
      }
    }

    /** One request, whatever it is. It moves the tables as `Step` says and keeps the invariant. */
    method Handle(e: Event) returns (ok: bool)
      modifies this
      ensures Tables() == Step(old(Tables()), e).world
      ensures ok == Step(old(Tables()), e).ok
      ensures Inv(old(Tables())) ==> Inv(Tables())
    {
      ghost var before := Tables();
      match e {
      case CreateCargo(_, _, _, _) => ok := CargoRequest(e);
      case PatchCargoStatus(_, _) => ok := CargoRequest(e);
      case ModerationAccept(_, _) => ok := CargoRequest(e);
      case ModerationReject(_, _) => ok := CargoRequest(e);
      case DeleteCargo(_) => ok := CargoRequest(e);
      case CreateOffer(_, _, _) => ok := CargoRequest(e);
      case AcceptOffer(_, _) => ok := CargoRequest(e);
      case RejectOffer(_, _) => ok := CargoRequest(e);
      case PutDriver(_, _) => ok := DriverTableRequest(e);
      case RemoveDriver(_) => ok := DriverTableRequest(e);
      case _ => ok := DriverRequest(e);
      }
      if Inv(before) {
        StepKeepsInv(before, e);
      }
    }
  }
}
