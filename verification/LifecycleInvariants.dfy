/** What every handler keeps, and what therefore holds in every run. */
module LifecycleInvariants {
  import opened Wrappers
  import opened Lifecycle

  /* ---------- the inductive invariant ---------- */

  ghost predicate References(w: World) {
    && (forall o | o in w.offers :: w.offers[o].cargo in w.cargos)
    && (forall t | t in w.trips :: w.trips[t].offer in w.offers && w.trips[t].cargo in w.cargos)
    && (forall k | k in w.recs :: k.0 in w.cargos && k.1 in w.drivers)
    && (forall t | t in w.trips && w.trips[t].driver.Some? :: w.trips[t].driver.value in w.drivers)
  }

  predicate Closing(s: CargoStatus) {
    s in {Assigned, InProgress, Completed, Cancelled}
  }

  predicate Taken(w: World, o: Id, c: Id) {
    o in w.offers && w.offers[o].cargo == c && w.offers[o].status == OfferAccepted
  }

  ghost predicate HasAccepted(w: World, c: Id) {
    exists o :: Taken(w, o, c)
  }

  ghost predicate OneAcceptedOffer(w: World) {
    forall o1, o2, c :: Taken(w, o1, c) && Taken(w, o2, c) ==> o1 == o2
  }

  ghost predicate AcceptedCloses(w: World) {
    forall o, c :: Taken(w, o, c) ==>
      && (forall p | p in w.offers && w.offers[p].cargo == c :: w.offers[p].status != OfferPending)
      && (Live(w, c) ==> Closing(w.cargos[c].status))
  }

  ghost predicate TripsFollowOffers(w: World) {
    && (forall t | t in w.trips :: Taken(w, w.trips[t].offer, w.trips[t].cargo))
    && (forall t1, t2 | t1 in w.trips && t2 in w.trips && w.trips[t1].cargo == w.trips[t2].cargo :: t1 == t2)
  }

  ghost predicate DriversConfirmed(w: World) {
    forall t | t in w.trips && w.trips[t].status != PendingDriver ::
      && w.trips[t].driver.Some?
      && (w.trips[t].status != TripCancelled ==> DriverConfirmed(t, w.trips[t].driver.value) in w.log)
  }

  ghost predicate RecsFollowOffers(w: World) {
    forall k | k in w.recs && w.recs[k].status == RecAccepted ::
      exists o :: Taken(w, o, k.0) && w.offers[o].carrier == k.1
  }

  ghost predicate StatusesReached(w: World) {
    && (forall c | c in w.cargos :: w.cargos[c].status !in {Created, InTransit, Delivered})
    && (forall o | o in w.offers ::
          w.offers[o].cargo in w.cargos && w.cargos[w.offers[o].cargo].status !in {PendingModeration, Refused})
  }

  ghost predicate Inv(w: World) {
    && References(w)
    && OneAcceptedOffer(w)
    && AcceptedCloses(w)
    && TripsFollowOffers(w)
    && DriversConfirmed(w)
    && RecsFollowOffers(w)
    && StatusesReached(w)
  }

  /* ---------- frames: what a conjunct does not notice ---------- */

  /** Accepted offers stay accepted, with their carriers. */
  ghost predicate TakenStays(w: World, w': World) {
    forall o, c :: Taken(w, o, c) ==> Taken(w', o, c) && w'.offers[o].carrier == w.offers[o].carrier
  }

  lemma TripsStay(w: World, w': World)
    requires TripsFollowOffers(w) && w'.trips == w.trips && TakenStays(w, w')
    ensures TripsFollowOffers(w')
  {
  }

  lemma RecsStay(w: World, w': World)
    requires RecsFollowOffers(w) && TakenStays(w, w')
    requires forall k | k in w'.recs && w'.recs[k].status == RecAccepted ::
               k in w.recs && w.recs[k].status == RecAccepted
    ensures RecsFollowOffers(w')
  {
    forall k | k in w'.recs && w'.recs[k].status == RecAccepted
      ensures exists o :: Taken(w', o, k.0) && w'.offers[o].carrier == k.1
    {
      var o :| Taken(w, o, k.0) && w.offers[o].carrier == k.1;
      assert Taken(w', o, k.0) && w'.offers[o].carrier == k.1;
    }
  }

  lemma DriversStay(w: World, w': World)
    requires DriversConfirmed(w) && w'.trips == w.trips && forall e :: e in w.log ==> e in w'.log
    ensures DriversConfirmed(w')
  {
  }

  /** Steps that leave offers and cargo rows as they are keep the offer half of the invariant. */
  lemma SameOffers(w: World, w': World)
    requires w'.offers == w.offers && w'.cargos == w.cargos
    ensures forall o, d :: Taken(w', o, d) <==> Taken(w, o, d)
    ensures TakenStays(w, w')
    ensures Inv(w) ==> OneAcceptedOffer(w') && AcceptedCloses(w') && StatusesReached(w')
  {
  }

  /* ---------- preservation, statement by statement ---------- */

  lemma WriteStatusTaken(w: World, c: Id, s: CargoStatus)
    requires c in w.cargos
    ensures forall o, d :: Taken(WriteStatus(w, c, s), o, d) <==> Taken(w, o, d)
    ensures TakenStays(w, WriteStatus(w, c, s))
  {
  }

  lemma WriteStatusCloses(w: World, c: Id, s: CargoStatus)
    requires AcceptedCloses(w) && Live(w, c) && s in CargoNext(w.cargos[c].status)
    ensures AcceptedCloses(WriteStatus(w, c, s))
  {
    WriteStatusTaken(w, c, s);
  }

  lemma WriteStatusReaches(w: World, c: Id, s: CargoStatus)
    requires StatusesReached(w) && Live(w, c) && s in CargoNext(w.cargos[c].status)
    ensures StatusesReached(WriteStatus(w, c, s))
  {
  }

  lemma WriteStatusKeeps(w: World, c: Id, s: CargoStatus)
    requires Inv(w) && Live(w, c) && s in CargoNext(w.cargos[c].status)
    ensures Inv(WriteStatus(w, c, s))
  {
    var w' := WriteStatus(w, c, s);
    WriteStatusTaken(w, c, s);
    WriteStatusCloses(w, c, s);
    WriteStatusReaches(w, c, s);
    TripsStay(w, w');
    RecsStay(w, w');
    DriversStay(w, w');
  }

  /** What the accepting transaction leaves in the tables, said row by row. */
  ghost predicate AcceptedShape(w: World, w': World, o: Id, c: Id) {
    && w'.trips == w.trips && w'.recs == w.recs && w'.drivers == w.drivers
    && w'.offers.Keys == w.offers.Keys && w'.cargos.Keys == w.cargos.Keys
    && (forall p | p in w.offers ::
          w'.offers[p].cargo == w.offers[p].cargo && w'.offers[p].carrier == w.offers[p].carrier)
    && (forall p, d :: Taken(w', p, d) <==> Taken(w, p, d) || (p == o && d == c))
    && (forall p | p in w.offers && w.offers[p].cargo == c :: w'.offers[p].status != OfferPending)
    && (forall p | p in w.offers && w.offers[p].cargo != c :: w'.offers[p] == w.offers[p])
    && (forall d | d in w.cargos && d != c :: w'.cargos[d] == w.cargos[d])
    && (c in w.cargos && !w.cargos[c].deleted ==> w'.cargos[c].status == Assigned)
    && (c in w.cargos && w.cargos[c].deleted ==> w'.cargos[c] == w.cargos[c])
    && (forall e :: e in w.log ==> e in w'.log)
  }

  lemma AcceptTxShape(w: World, o: Id)
    requires References(w) && OfferIs(w, o, OfferPending)
    ensures AcceptedShape(w, AcceptTx(w, o), o, w.offers[o].cargo)
  {
    var w' := AcceptTx(w, o);
    var c := w.offers[o].cargo;
    forall p, d ensures Taken(w', p, d) <==> Taken(w, p, d) || (p == o && d == c) {}
  }

  lemma AcceptedShapeRest(w: World, w': World, o: Id, c: Id)
    requires Inv(w) && OfferIs(w, o, OfferPending) && c == w.offers[o].cargo && AcceptedShape(w, w', o, c)
    ensures TripsFollowOffers(w') && DriversConfirmed(w') && RecsFollowOffers(w')
  {
    TripsStay(w, w');
    RecsStay(w, w');
    DriversStay(w, w');
  }

  lemma AcceptTxKeeps(w: World, o: Id)
    requires Inv(w) && OfferIs(w, o, OfferPending)
    ensures Inv(AcceptTx(w, o))
    ensures Taken(AcceptTx(w, o), o, w.offers[o].cargo)
    ensures !exists t :: t in w.trips && w.trips[t].cargo == w.offers[o].cargo
    ensures !HasAccepted(w, w.offers[o].cargo)
  {
    AcceptTxShape(w, o);
    AcceptedShapeKeeps(w, AcceptTx(w, o), o, w.offers[o].cargo);
  }

  lemma AcceptedShapeKeeps(w: World, w': World, o: Id, c: Id)
    requires Inv(w) && OfferIs(w, o, OfferPending) && c == w.offers[o].cargo && AcceptedShape(w, w', o, c)
    ensures Inv(w')
  {
    AcceptedShapeRest(w, w', o, c);
  }

  lemma NewTripRows(w: World, t: Id, trip: Trip)
    requires TripsFollowOffers(w) && t !in w.trips && Taken(w, trip.offer, trip.cargo)
    requires !exists u :: u in w.trips && w.trips[u].cargo == trip.cargo
    ensures TripsFollowOffers(w.(trips := w.trips[t := trip]))
  {
    var w' := w.(trips := w.trips[t := trip]);
    assert TakenStays(w, w');
  }

  lemma NewTripDrivers(w: World, t: Id, trip: Trip)
    requires DriversConfirmed(w) && trip.status == PendingDriver
    ensures DriversConfirmed(w.(trips := w.trips[t := trip]))
  {
  }

  lemma NewTripKeeps(w: World, t: Id, trip: Trip)
    requires Inv(w) && t !in w.trips && Taken(w, trip.offer, trip.cargo) && trip.status == PendingDriver
    requires trip.driver.Some? ==> trip.driver.value in w.drivers
    requires !exists u :: u in w.trips && w.trips[u].cargo == trip.cargo
    ensures Inv(w.(trips := w.trips[t := trip]))
  {
    var w' := w.(trips := w.trips[t := trip]);
    SameOffers(w, w');
    NewTripRows(w, t, trip);
    NewTripDrivers(w, t, trip);
    RecsStay(w, w');
  }

  lemma StartTripKeeps(w: World, t: Id, c: Id, o: Id, carrier: Id)
    requires Inv(w) && Taken(w, o, c)
    requires !exists u :: u in w.trips && w.trips[u].cargo == c
    ensures Inv(StartTrip(w, t, c, o, carrier))
  {
    if t !in w.trips {
      NewTripKeeps(w, t, Trip(c, o, if carrier in w.drivers then Some(carrier) else None, PendingDriver));
    }
  }

  lemma AcceptOfferKeeps(w: World, o: Id, t: Id)
    requires Inv(w)
    ensures Inv(StepAcceptOffer(w, o, t).world)
  {
    if OfferIs(w, o, OfferPending) {
      AcceptTxKeeps(w, o);
      StartTripKeeps(AcceptTx(w, o), t, w.offers[o].cargo, o, w.offers[o].carrier);
    }
  }

  lemma InsertOfferOffers(w: World, o: Id, c: Id, carrier: Id)
    requires Inv(w) && Live(w, c) && IsSearching(w.cargos[c].status) && o !in w.offers
    ensures
      var w' := w.(offers := w.offers[o := Offer(c, carrier, OfferPending)]);
      TakenStays(w, w') && OneAcceptedOffer(w') && AcceptedCloses(w') && StatusesReached(w')
  {
    var w' := w.(offers := w.offers[o := Offer(c, carrier, OfferPending)]);
    assert forall p, d :: Taken(w', p, d) <==> Taken(w, p, d);
  }

  lemma InsertOfferKeeps(w: World, o: Id, c: Id, carrier: Id)
    requires Inv(w) && Live(w, c) && IsSearching(w.cargos[c].status) && o !in w.offers
    ensures Inv(w.(offers := w.offers[o := Offer(c, carrier, OfferPending)]))
  {
    var w' := w.(offers := w.offers[o := Offer(c, carrier, OfferPending)]);
    InsertOfferOffers(w, o, c, carrier);
    TripsStay(w, w');
    RecsStay(w, w');
    DriversStay(w, w');
  }

  lemma LogKeeps(w: World, x: Entry)
    requires Inv(w)
    ensures Inv(w.(log := w.log + [x]))
  {
    var w' := w.(log := w.log + [x]);
    SameOffers(w, w');
    TripsStay(w, w');
    RecsStay(w, w');
    DriversStay(w, w');
  }

  lemma CreateOfferKeeps(w: World, o: Id, c: Id, carrier: Id)
    requires Inv(w)
    ensures Inv(StepCreateOffer(w, o, c, carrier).world)
  {
    if Admits(w, c, carrier) && o !in w.offers {
      InsertOfferKeeps(w, o, c, carrier);
      LogKeeps(w.(offers := w.offers[o := Offer(c, carrier, OfferPending)]),
               OfferMade(c, carrier, CompanyOf(w, carrier), w.cargos[c].company));
    }
  }

  lemma RejectOfferOffers(w: World, o: Id)
    requires Inv(w) && OfferIs(w, o, OfferPending)
    ensures
      var w' := w.(offers := w.offers[o := w.offers[o].(status := OfferRejected)]);
      TakenStays(w, w') && OneAcceptedOffer(w') && AcceptedCloses(w') && StatusesReached(w')
  {
    var w' := w.(offers := w.offers[o := w.offers[o].(status := OfferRejected)]);
    assert forall p, c :: Taken(w', p, c) <==> Taken(w, p, c);
  }

  lemma RejectOfferKeeps(w: World, o: Id, d: Id)
    requires Inv(w)
    ensures Inv(StepRejectOffer(w, o, d).world)
  {
    if StepRejectOffer(w, o, d).ok {
      var w' := StepRejectOffer(w, o, d).world;
      RejectOfferOffers(w, o);
      TripsStay(w, w');
      RecsStay(w, w');
      DriversStay(w, w');
    }
  }

  lemma RecTakenKeeps(w: World, c: Id, driver: Id, o: Id)
    requires Inv(w) && (c, driver) in w.recs && Taken(w, o, c) && w.offers[o].carrier == driver
    ensures Inv(SetRec(w, c, driver, RecAccepted))
  {
    var w' := SetRec(w, c, driver, RecAccepted);
    SameOffers(w, w');
    TripsStay(w, w');
    DriversStay(w, w');
    forall k | k in w'.recs && w'.recs[k].status == RecAccepted
      ensures exists p :: Taken(w', p, k.0) && w'.offers[p].carrier == k.1
    {
      if k == (c, driver) {
        assert Taken(w', o, k.0);
      } else {
        var p :| Taken(w, p, k.0) && w.offers[p].carrier == k.1;
        assert Taken(w', p, k.0);
      }
    }
  }

  lemma AcceptRecommendationKeeps(w: World, c: Id, driver: Id, o: Id, t: Id)
    requires Inv(w)
    ensures Inv(StepAcceptRecommendation(w, c, driver, o, t).world)
  {
    if RecIsPending(w, c, driver) && Live(w, c) && IsSearching(w.cargos[c].status) && o !in w.offers {
      InsertOfferKeeps(w, o, c, driver);
      var w1 := w.(offers := w.offers[o := Offer(c, driver, OfferPending)]);
      AcceptTxKeeps(w1, o);
      AcceptTxShape(w1, o);
      var w2 := AcceptTx(w1, o);
      RecTakenKeeps(w2, c, driver, o);
      StartTripKeeps(SetRec(w2, c, driver, RecAccepted), t, c, o, driver);
    }
  }

  lemma RecStepKeeps(w: World, w': World)
    requires Inv(w)
    requires w' == w.(recs := w'.recs)
    requires forall k | k in w'.recs :: k.0 in w.cargos && k.1 in w.drivers
    requires forall k | k in w'.recs && w'.recs[k].status == RecAccepted ::
               k in w.recs && w.recs[k].status == RecAccepted
    ensures Inv(w')
  {
    SameOffers(w, w');
    TripsStay(w, w');
    RecsStay(w, w');
    DriversStay(w, w');
  }

  lemma RecommendKeeps(w: World, c: Id, driver: Id, dispatcher: Id)
    requires Inv(w)
    ensures Inv(StepRecommend(w, c, driver, dispatcher).world)
  {
    RecStepKeeps(w, StepRecommend(w, c, driver, dispatcher).world);
  }

  lemma DeclineRecommendationKeeps(w: World, c: Id, driver: Id)
    requires Inv(w)
    ensures Inv(StepDeclineRecommendation(w, c, driver).world)
  {
    RecStepKeeps(w, StepDeclineRecommendation(w, c, driver).world);
  }

  /** A trip after a step of its own: the same contract, and a known driver. */
  ghost predicate TripMoves(w: World, w': World, t: Id) {
    && t in w.trips && t in w'.trips
    && w' == w.(trips := w.trips[t := w'.trips[t]], log := w'.log)
    && (forall e :: e in w.log ==> e in w'.log)
    && w'.trips[t].cargo == w.trips[t].cargo && w'.trips[t].offer == w.trips[t].offer
    && (w'.trips[t].driver.Some? ==> w'.trips[t].driver.value in w.drivers)
    && (w'.trips[t].status != PendingDriver ==> w'.trips[t].driver.Some?)
    && (w'.trips[t].status !in {PendingDriver, TripCancelled} ==>
          DriverConfirmed(t, w'.trips[t].driver.value) in w'.log)
  }

  lemma TripMoveRows(w: World, w': World, t: Id)
    requires TripsFollowOffers(w) && TripMoves(w, w', t)
    ensures TripsFollowOffers(w')
  {
    assert TakenStays(w, w');
  }

  lemma TripMoveDrivers(w: World, w': World, t: Id)
    requires DriversConfirmed(w) && TripMoves(w, w', t)
    ensures DriversConfirmed(w')
  {
  }

  lemma TripMoveReferences(w: World, w': World, t: Id)
    requires References(w) && TripMoves(w, w', t)
    ensures References(w')
  {
  }

  lemma TripStepKeeps(w: World, w': World, t: Id)
    requires Inv(w) && TripMoves(w, w', t)
    ensures Inv(w')
  {
    SameOffers(w, w');
    TripMoveReferences(w, w', t);
    TripMoveRows(w, w', t);
    TripMoveDrivers(w, w', t);
    RecsStay(w, w');
  }

  lemma AssignDriverKeeps(w: World, t: Id, driver: Id)
    requires Inv(w)
    ensures Inv(StepAssignDriver(w, t, driver).world)
  {
    if StepAssignDriver(w, t, driver).ok { TripStepKeeps(w, StepAssignDriver(w, t, driver).world, t); }
  }

  lemma ConfirmDriverKeeps(w: World, t: Id, driver: Id)
    requires Inv(w)
    ensures Inv(StepConfirmDriver(w, t, driver).world)
  {
    if StepConfirmDriver(w, t, driver).ok { TripStepKeeps(w, StepConfirmDriver(w, t, driver).world, t); }
  }

  lemma RejectDriverKeeps(w: World, t: Id, driver: Id)
    requires Inv(w)
    ensures Inv(StepRejectDriver(w, t, driver).world)
  {
    if StepRejectDriver(w, t, driver).ok { TripStepKeeps(w, StepRejectDriver(w, t, driver).world, t); }
  }

  lemma SyncCargoKeeps(w: World, c: Id, s: TripStatus)
    requires Inv(w)
    ensures Inv(SyncCargo(w, c, s))
  {
    if SyncCargo(w, c, s) != w {
      WriteStatusKeeps(w, c, if s == Loading then InProgress else Completed);
    }
  }

  lemma PatchTripStatusKeeps(w: World, t: Id, driver: Id, s: TripStatus)
    requires Inv(w)
    ensures Inv(StepPatchTripStatus(w, t, driver, s).world)
  {
    if StepPatchTripStatus(w, t, driver, s).ok {
      var w1 := SetTrip(w, t, w.trips[t].(status := s));
      TripStepKeeps(w, w1, t);
      SyncCargoKeeps(w1, w.trips[t].cargo, s);
    }
  }

  lemma PutDriverKeeps(w: World, driver: Id, company: Option<Id>)
    requires Inv(w)
    ensures Inv(StepPutDriver(w, driver, company).world)
  {
    var w' := StepPutDriver(w, driver, company).world;
    SameOffers(w, w');
    TripsStay(w, w');
    RecsStay(w, w');
    DriversStay(w, w');
  }

  lemma RemoveDriverKeeps(w: World, driver: Id)
    requires Inv(w)
    ensures Inv(StepRemoveDriver(w, driver).world)
  {
    var w' := StepRemoveDriver(w, driver).world;
    SameOffers(w, w');
    TripsStay(w, w');
    RecsStay(w, w');
    DriversStay(w, w');
  }

  /** A cargo row that is new, or only gets deleted. */
  lemma CargoRowKeeps(w: World, c: Id, row: Cargo)
    requires Inv(w)
    requires row.deleted || row.status == PendingModeration
    requires if c in w.cargos then row.status == w.cargos[c].status && row.deleted else row.status == PendingModeration
    ensures Inv(w.(cargos := w.cargos[c := row]))
  {
    var w' := w.(cargos := w.cargos[c := row]);
    assert forall o, d :: Taken(w', o, d) <==> Taken(w, o, d);
    TripsStay(w, w');
    RecsStay(w, w');
    DriversStay(w, w');
  }

  lemma CreateCargoKeeps(w: World, c: Id, creator: Option<Creator>, company: Option<Id>, limit: int)
    requires Inv(w)
    ensures Inv(StepCreateCargo(w, c, creator, company, limit).world)
  {
    if StepCreateCargo(w, c, creator, company, limit).ok {
      CargoRowKeeps(w, c, StepCreateCargo(w, c, creator, company, limit).world.cargos[c]);
    }
  }

  lemma DeleteCargoKeeps(w: World, c: Id)
    requires Inv(w)
    ensures Inv(StepDeleteCargo(w, c).world)
  {
    if Live(w, c) { CargoRowKeeps(w, c, w.cargos[c].(deleted := true)); }
  }

  predicate IsMarketRequest(e: Event) {
    || e.CreateCargo? || e.DeleteCargo? || e.CreateOffer? || e.AcceptOffer? || e.RejectOffer?
    || e.PutDriver? || e.RemoveDriver?
  }

  predicate IsStatusRequest(e: Event) {
    e.PatchCargoStatus? || e.ModerationAccept? || e.ModerationReject?
  }

  lemma StatusRequestKeeps(w: World, e: Event)
    requires Inv(w) && IsStatusRequest(e)
    ensures Inv(Step(w, e).world)
  {
    if Step(w, e).ok {
      WriteStatusKeeps(w, e.cargo, Step(w, e).world.cargos[e.cargo].status);
    }
  }

  lemma MarketRequestKeeps(w: World, e: Event)
    requires Inv(w)
    requires IsMarketRequest(e)
    ensures Inv(Step(w, e).world)
  {
    match e
    case CreateCargo(c, creator, company, limit) => CreateCargoKeeps(w, c, creator, company, limit);
    case DeleteCargo(c) => DeleteCargoKeeps(w, c);
    case CreateOffer(o, c, carrier) => CreateOfferKeeps(w, o, c, carrier);
    case AcceptOffer(o, t) => AcceptOfferKeeps(w, o, t);
    case RejectOffer(o, d) => RejectOfferKeeps(w, o, d);
    case PutDriver(driver, company) => PutDriverKeeps(w, driver, company);
    case RemoveDriver(driver) => RemoveDriverKeeps(w, driver);
  }

  lemma DriverRequestKeeps(w: World, e: Event)
    requires Inv(w)
    requires !IsMarketRequest(e) && !IsStatusRequest(e)
    ensures Inv(Step(w, e).world)
  {
    match e
    case Recommend(c, driver, d) => RecommendKeeps(w, c, driver, d);
    case AcceptRecommendation(c, driver, o, t) => AcceptRecommendationKeeps(w, c, driver, o, t);
    case DeclineRecommendation(c, driver) => DeclineRecommendationKeeps(w, c, driver);
    case AssignDriver(t, driver) => AssignDriverKeeps(w, t, driver);
    case ConfirmDriver(t, driver) => ConfirmDriverKeeps(w, t, driver);
    case RejectDriver(t, driver) => RejectDriverKeeps(w, t, driver);
    case PatchTripStatus(t, driver, s) => PatchTripStatusKeeps(w, t, driver, s);
  }

  lemma StepKeepsInv(w: World, e: Event)
    requires Inv(w)
    ensures Inv(Step(w, e).world)
  {
    if IsMarketRequest(e) {
      MarketRequestKeeps(w, e);
    } else if IsStatusRequest(e) {
      StatusRequestKeeps(w, e);
    } else {
      DriverRequestKeeps(w, e);
    }
  }

  lemma {:induction false} RunKeepsInv(es: seq<Event>)
    ensures Inv(Run(es))
  {
    if es != [] {
      RunKeepsInv(es[..|es| - 1]);
      StepKeepsInv(Run(es[..|es| - 1]), es[|es| - 1]);
    }
  }
}
