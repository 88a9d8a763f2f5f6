/**
 The freight lifecycle: the tables cargo, offers, trips, cargo_driver_recommendations and
 drivers as finite maps, and every handler that writes them as one atomic step.

 `World.log` is a history variable. Each entry records one SQL statement that matched a row;
 no step reads it.
 */
module Lifecycle {
  import opened Wrappers

  type Id = nat

  datatype CargoStatus =
    | Created | PendingModeration | SearchingAll | SearchingCompany | Refused | Assigned
    | InProgress | InTransit | Delivered | Completed | Cancelled

  datatype OfferStatus = OfferPending | OfferAccepted | OfferRejected

  datatype TripStatus =
    | PendingDriver | TripAssigned | Loading | EnRoute | Unloading | TripCompleted | TripCancelled

  datatype RecStatus = RecPending | RecAccepted | RecDeclined

  datatype Creator = Admin(id: Id) | Dispatcher(id: Id) | Company(id: Id)

  datatype Cargo = Cargo(status: CargoStatus, deleted: bool, creator: Option<Creator>, company: Option<Id>)
  datatype Offer = Offer(cargo: Id, carrier: Id, status: OfferStatus)
  datatype Trip = Trip(cargo: Id, offer: Id, driver: Option<Id>, status: TripStatus)
  datatype Rec = Rec(dispatcher: Id, status: RecStatus)

  datatype Entry =
    | StatusWritten(cargo: Id, status: CargoStatus)
    | OfferMade(cargo: Id, carrier: Id, carrierCompany: Option<Id>, cargoCompany: Option<Id>)
    | OfferTaken(cargo: Id, offer: Id)
    | DriverConfirmed(trip: Id, driver: Id)

  datatype World = World(
    cargos: map<Id, Cargo>,
    offers: map<Id, Offer>,
    trips: map<Id, Trip>,
    recs: map<(Id, Id), Rec>,          // keyed by (cargo, driver), which is UNIQUE
    drivers: map<Id, Option<Id>>,      // driver -> company
    log: seq<Entry>)

  const EMPTY := World(map[], map[], map[], map[], map[], [])

  datatype Event =
    | CreateCargo(cargo: Id, creator: Option<Creator>, company: Option<Id>, limit: int)
    | PatchCargoStatus(cargo: Id, cargoStatus: CargoStatus)
    | ModerationAccept(cargo: Id, wantCompany: bool)
    | ModerationReject(cargo: Id, blankReason: bool)
    | DeleteCargo(cargo: Id)
    | CreateOffer(offer: Id, cargo: Id, carrier: Id)
    | AcceptOffer(offer: Id, newTrip: Id)
    | RejectOffer(offer: Id, dispatcher: Id)
    | Recommend(cargo: Id, driver: Id, dispatcher: Id)
    | AcceptRecommendation(cargo: Id, driver: Id, newOffer: Id, newTrip: Id)
    | DeclineRecommendation(cargo: Id, driver: Id)
    | AssignDriver(trip: Id, driver: Id)
    | ConfirmDriver(trip: Id, driver: Id)
    | RejectDriver(trip: Id, driver: Id)
    | PatchTripStatus(trip: Id, driver: Id, tripStatus: TripStatus)
    | PutDriver(driver: Id, driverCompany: Option<Id>)
    | RemoveDriver(driver: Id)

  /** The state after a handler ran, and whether the handler answered with success. */
  datatype Outcome = Outcome(world: World, ok: bool)

  predicate IsSearching(s: CargoStatus) {
    s == SearchingAll || s == SearchingCompany
  }

  predicate Live(w: World, c: Id) {
    c in w.cargos && !w.cargos[c].deleted
  }

  /** The transition table of cargo.Repo.SetStatus. */
  function CargoNext(s: CargoStatus): seq<CargoStatus> {
    match s
    case Created => [SearchingAll, SearchingCompany, Cancelled]
    case PendingModeration => [SearchingAll, SearchingCompany, Refused]
    case SearchingAll => [Assigned, Cancelled]
    case SearchingCompany => [Assigned, Cancelled]
    case Assigned => [InProgress, Cancelled]
    case InProgress => [Completed]
    case InTransit => [Delivered]
    case Refused => []
    case Delivered => []
    case Completed => []
    case Cancelled => []
  }

  /** allowedTransitions of trips.Repo. */
  function TripNext(s: TripStatus): seq<TripStatus> {
    match s
    case PendingDriver => [TripAssigned, TripCancelled]
    case TripAssigned => [Loading, TripCancelled]
    case Loading => [EnRoute, TripCancelled]
    case EnRoute => [Unloading]
    case Unloading => [TripCompleted]
    case TripCompleted => []
    case TripCancelled => []
  }

  /* ---------- effects of single SQL statements ---------- */

  function WriteStatus(w: World, c: Id, s: CargoStatus): World
    requires c in w.cargos
  {
    w.(cargos := w.cargos[c := w.cargos[c].(status := s)], log := w.log + [StatusWritten(c, s)])
  }

  /** UPDATE cargo SET status = s WHERE id = c AND deleted_at IS NULL AND status IN from. */
  function WriteStatusFrom(w: World, c: Id, from: set<CargoStatus>, s: CargoStatus): World {
    if Live(w, c) && w.cargos[c].status in from then WriteStatus(w, c, s) else w
  }

  predicate OfferIs(w: World, o: Id, s: OfferStatus) {
    o in w.offers && w.offers[o].status == s
  }

  /** All offers after `taken` was accepted: it is ACCEPTED and its pending rivals are REJECTED. */
  function OffersAfterAccept(offers: map<Id, Offer>, taken: Id): map<Id, Offer>
    requires taken in offers
  {
    map o | o in offers ::
      if o == taken then offers[o].(status := OfferAccepted)
      else if offers[o].cargo == offers[taken].cargo && offers[o].status == OfferPending
      then offers[o].(status := OfferRejected)
      else offers[o]
  }

  /** The transaction of cargo.Repo.AcceptOffer, for a pending offer. */
  function AcceptTx(w: World, o: Id): World
    requires OfferIs(w, o, OfferPending)
  {
    var c := w.offers[o].cargo;
    var w1 := w.(offers := OffersAfterAccept(w.offers, o), log := w.log + [OfferTaken(c, o)]);
    if Live(w1, c) then WriteStatus(w1, c, Assigned) else w1
  }

  /** trips.Repo.Create then AssignDriver, errors ignored: a colliding id creates no trip, and the
      foreign key on drivers leaves driver_id NULL for a carrier that is no driver. */
  function StartTrip(w: World, t: Id, c: Id, o: Id, carrier: Id): World {
    if t in w.trips then w
    else
      var driver := if carrier in w.drivers then Some(carrier) else None;
      w.(trips := w.trips[t := Trip(c, o, driver, PendingDriver)])
  }

  /* ---------- one function per handler ---------- */

  /** CountByDispatcher counts these: the undeleted cargos that the dispatcher created. */
  function CreatedBy(cargos: map<Id, Cargo>, dispatcher: Id): set<Id> {
    set c | c in cargos && !cargos[c].deleted && cargos[c].creator == Some(Dispatcher(dispatcher))
  }

  predicate OverLimit(w: World, creator: Option<Creator>, limit: int) {
    creator.Some? && creator.value.Dispatcher? && limit > 0 && |CreatedBy(w.cargos, creator.value.id)| >= limit
  }

  function StepCreateCargo(w: World, c: Id, creator: Option<Creator>, company: Option<Id>, limit: int): Outcome {
    if OverLimit(w, creator, limit) || c in w.cargos then Outcome(w, false)
    else
      var owner := if creator.None? && company.Some? then Some(Company(company.value)) else creator;
      Outcome(w.(cargos := w.cargos[c := Cargo(PendingModeration, false, owner, company)]), true)
  }

  function StepPatchCargoStatus(w: World, c: Id, s: CargoStatus): Outcome {
    if Live(w, c) && s in CargoNext(w.cargos[c].status) then Outcome(WriteStatus(w, c, s), true)
    else Outcome(w, false)
  }

  function StepModerationAccept(w: World, c: Id, wantCompany: bool): Outcome {
    if !Live(w, c) || w.cargos[c].status != PendingModeration then Outcome(w, false)
    else
      var byDispatcher := w.cargos[c].creator.Some? && w.cargos[c].creator.value.Dispatcher?;
      Outcome(WriteStatus(w, c, if wantCompany && !byDispatcher then SearchingCompany else SearchingAll), true)
  }

  function StepModerationReject(w: World, c: Id, blankReason: bool): Outcome {
    if blankReason || !Live(w, c) || w.cargos[c].status != PendingModeration then Outcome(w, false)
    else Outcome(WriteStatus(w, c, Refused), true)
  }

  function StepDeleteCargo(w: World, c: Id): Outcome {
    if Live(w, c) then Outcome(w.(cargos := w.cargos[c := w.cargos[c].(deleted := true)]), true)
    else Outcome(w, true)
  }

  /** The gate of the CreateOffer handler. */
  predicate Admits(w: World, c: Id, carrier: Id) {
    && Live(w, c)
    && IsSearching(w.cargos[c].status)
    && (w.cargos[c].status == SearchingCompany ==>
          && w.cargos[c].company.Some?
          && carrier in w.drivers
          && w.drivers[carrier] == w.cargos[c].company)
  }

  function CompanyOf(w: World, d: Id): Option<Id> {
    if d in w.drivers then w.drivers[d] else None
  }

  function StepCreateOffer(w: World, o: Id, c: Id, carrier: Id): Outcome {
    if !Admits(w, c, carrier) || o in w.offers then Outcome(w, false)
    else
      Outcome(w.(offers := w.offers[o := Offer(c, carrier, OfferPending)],
                 log := w.log + [OfferMade(c, carrier, CompanyOf(w, carrier), w.cargos[c].company)]),
              true)
  }

  function StepAcceptOffer(w: World, o: Id, newTrip: Id): Outcome {
    if !OfferIs(w, o, OfferPending) then Outcome(w, false)
    else
      var offer := w.offers[o];
      Outcome(StartTrip(AcceptTx(w, o), newTrip, offer.cargo, o, offer.carrier), true)
  }

  predicate OwnedByDispatcher(w: World, c: Id, dispatcher: Id) {
    c in w.cargos && w.cargos[c].creator == Some(Dispatcher(dispatcher))
  }

  function StepRejectOffer(w: World, o: Id, dispatcher: Id): Outcome {
    if !OfferIs(w, o, OfferPending) then Outcome(w, false)
    else if !Live(w, w.offers[o].cargo) || !OwnedByDispatcher(w, w.offers[o].cargo, dispatcher) then Outcome(w, false)
    else Outcome(w.(offers := w.offers[o := w.offers[o].(status := OfferRejected)]), true)
  }

  function StepRecommend(w: World, c: Id, driver: Id, dispatcher: Id): Outcome {
    if !Live(w, c) || !IsSearching(w.cargos[c].status) || !OwnedByDispatcher(w, c, dispatcher) || driver !in w.drivers
    then Outcome(w, false)
    else Outcome(w.(recs := w.recs[(c, driver) := Rec(dispatcher, RecPending)]), true)
  }

  predicate RecIsPending(w: World, c: Id, driver: Id) {
    (c, driver) in w.recs && w.recs[(c, driver)].status == RecPending
  }

  function SetRec(w: World, c: Id, driver: Id, s: RecStatus): World
    requires (c, driver) in w.recs
  {
    w.(recs := w.recs[(c, driver) := w.recs[(c, driver)].(status := s)])
  }

  function StepAcceptRecommendation(w: World, c: Id, driver: Id, newOffer: Id, newTrip: Id): Outcome {
    if !RecIsPending(w, c, driver) || !Live(w, c) || !IsSearching(w.cargos[c].status) || newOffer in w.offers
    then Outcome(w, false)
    else
      var w1 := w.(offers := w.offers[newOffer := Offer(c, driver, OfferPending)]);
      var w2 := SetRec(AcceptTx(w1, newOffer), c, driver, RecAccepted);
      Outcome(StartTrip(w2, newTrip, c, newOffer, driver), true)
  }

  function StepDeclineRecommendation(w: World, c: Id, driver: Id): Outcome {
    if !RecIsPending(w, c, driver) then Outcome(w, false)
    else Outcome(SetRec(w, c, driver, RecDeclined), true)
  }

  function SetTrip(w: World, t: Id, trip: Trip): World {
    w.(trips := w.trips[t := trip])
  }

  function StepAssignDriver(w: World, t: Id, driver: Id): Outcome {
    if t in w.trips && w.trips[t].status == PendingDriver && driver in w.drivers
    then Outcome(SetTrip(w, t, w.trips[t].(driver := Some(driver))), true)
    else Outcome(w, false)
  }

  predicate AwaitsDriver(w: World, t: Id, driver: Id) {
    t in w.trips && w.trips[t].driver == Some(driver) && w.trips[t].status == PendingDriver
  }

  function StepConfirmDriver(w: World, t: Id, driver: Id): Outcome {
    if AwaitsDriver(w, t, driver)
    then Outcome(SetTrip(w, t, w.trips[t].(status := TripAssigned)).(log := w.log + [DriverConfirmed(t, driver)]), true)
    else Outcome(w, false)
  }

  function StepRejectDriver(w: World, t: Id, driver: Id): Outcome {
    if AwaitsDriver(w, t, driver) then Outcome(SetTrip(w, t, w.trips[t].(driver := None)), true)
    else Outcome(w, false)
  }

  /** What a new trip status does to the cargo row: SetCargoStatusInProgress / SetCargoStatusCompleted. */
  function SyncCargo(w: World, c: Id, s: TripStatus): World {
    if s == Loading then WriteStatusFrom(w, c, {Assigned}, InProgress)
    else if s == TripCompleted then WriteStatusFrom(w, c, {InProgress, InTransit}, Completed)
    else w
  }

  function StepPatchTripStatus(w: World, t: Id, driver: Id, s: TripStatus): Outcome {
    if t !in w.trips || w.trips[t].driver != Some(driver) then Outcome(w, false)
    else if s == PendingDriver || s == TripAssigned then Outcome(w, false)   // refused by request binding
    else if s !in TripNext(w.trips[t].status) then Outcome(w, false)
    else Outcome(SyncCargo(SetTrip(w, t, w.trips[t].(status := s)), w.trips[t].cargo, s), true)
  }

  function StepPutDriver(w: World, driver: Id, company: Option<Id>): Outcome {
    Outcome(w.(drivers := w.drivers[driver := company]), true)
  }

  /** trips.driver_id is a foreign key without a cascade; recommendations cascade. */
  function StepRemoveDriver(w: World, driver: Id): Outcome {
    if driver !in w.drivers || exists t | t in w.trips :: w.trips[t].driver == Some(driver) then Outcome(w, false)
    else Outcome(w.(drivers := w.drivers - {driver},
                    recs := map k | k in w.recs && k.1 != driver :: w.recs[k]), true)
  }

  function Step(w: World, e: Event): Outcome {
    match e
    case CreateCargo(c, creator, company, limit) => StepCreateCargo(w, c, creator, company, limit)
    case PatchCargoStatus(c, s) => StepPatchCargoStatus(w, c, s)
    case ModerationAccept(c, wantCompany) => StepModerationAccept(w, c, wantCompany)
    case ModerationReject(c, blank) => StepModerationReject(w, c, blank)
    case DeleteCargo(c) => StepDeleteCargo(w, c)
    case CreateOffer(o, c, carrier) => StepCreateOffer(w, o, c, carrier)
    case AcceptOffer(o, t) => StepAcceptOffer(w, o, t)
    case RejectOffer(o, d) => StepRejectOffer(w, o, d)
    case Recommend(c, driver, d) => StepRecommend(w, c, driver, d)
    case AcceptRecommendation(c, driver, o, t) => StepAcceptRecommendation(w, c, driver, o, t)
    case DeclineRecommendation(c, driver) => StepDeclineRecommendation(w, c, driver)
    case AssignDriver(t, driver) => StepAssignDriver(w, t, driver)
    case ConfirmDriver(t, driver) => StepConfirmDriver(w, t, driver)
    case RejectDriver(t, driver) => StepRejectDriver(w, t, driver)
    case PatchTripStatus(t, driver, s) => StepPatchTripStatus(w, t, driver, s)
    case PutDriver(driver, company) => StepPutDriver(w, driver, company)
    case RemoveDriver(driver) => StepRemoveDriver(w, driver)
  }

  /** The state reached from the empty database by a sequence of requests. */
  function Run(es: seq<Event>): World {
    if es == [] then EMPTY else Step(Run(es[..|es| - 1]), es[|es| - 1]).world
  }
}
