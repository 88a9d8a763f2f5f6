/**
 What each request does, said on the rows of the tables: when it succeeds, what it writes, and that it
 leaves the rest alone. The transition tables are spelled out pair by pair.
 */
module LifecycleEffects {
  import opened Wrappers
  import opened Lifecycle

  const CARGO_TRANSITIONS: set<(CargoStatus, CargoStatus)> := {
    (Created, SearchingAll), (Created, SearchingCompany), (Created, Cancelled),
    (PendingModeration, SearchingAll), (PendingModeration, SearchingCompany), (PendingModeration, Refused),
    (SearchingAll, Assigned), (SearchingAll, Cancelled),
    (SearchingCompany, Assigned), (SearchingCompany, Cancelled),
    (Assigned, InProgress), (Assigned, Cancelled),
    (InProgress, Completed), (InTransit, Delivered) }

  const TRIP_TRANSITIONS: set<(TripStatus, TripStatus)> := {
    (PendingDriver, TripAssigned), (PendingDriver, TripCancelled),
    (TripAssigned, Loading), (TripAssigned, TripCancelled),
    (Loading, EnRoute), (Loading, TripCancelled),
    (EnRoute, Unloading), (Unloading, TripCompleted) }

  lemma CargoTransitions(from: CargoStatus, to: CargoStatus)
    ensures to in CargoNext(from) <==> (from, to) in CARGO_TRANSITIONS
  {
  }

  lemma TripTransitions(from: TripStatus, to: TripStatus)
    ensures to in TripNext(from) <==> (from, to) in TRIP_TRANSITIONS
  {
  }

  /** A refused request writes nothing. */
  lemma RefusalWritesNothing(w: World, e: Event)
    requires !Step(w, e).ok
    ensures Step(w, e).world == w
  {
  }

  /* ---------- frames ---------- */

  /** No table but cargo was written, and there no row but that of c. */
  ghost predicate OnlyCargo(w: World, w': World, c: Id) {
    && w'.offers == w.offers && w'.trips == w.trips && w'.recs == w.recs && w'.drivers == w.drivers
    && w'.cargos.Keys == w.cargos.Keys + {c}
    && forall d | d in w.cargos && d != c :: w'.cargos[d] == w.cargos[d]
  }

  /** In the row of c nothing but the status was written. */
  ghost predicate NewStatus(w: World, w': World, c: Id, s: CargoStatus) {
    && c in w.cargos && c in w'.cargos
    && w'.cargos[c].status == s && w'.cargos[c].deleted == w.cargos[c].deleted
    && w'.cargos[c].creator == w.cargos[c].creator && w'.cargos[c].company == w.cargos[c].company
  }

  ghost predicate OnlyTrip(w: World, w': World, t: Id) {
    && w'.cargos == w.cargos && w'.offers == w.offers && w'.recs == w.recs && w'.drivers == w.drivers
    && TripRow(w, w', t)
  }

  ghost predicate TripRow(w: World, w': World, t: Id) {
    && t in w.trips && w'.trips.Keys == w.trips.Keys
    && (forall u | u in w.trips && u != t :: w'.trips[u] == w.trips[u])
    && w'.trips[t].cargo == w.trips[t].cargo && w'.trips[t].offer == w.trips[t].offer
  }

  predicate Undeleted(w: World, c: Id) {
    c in w.cargos && w.cargos[c].deleted == false
  }

  /* ---------- cargo ---------- */

  lemma CreateCargoEffect(w: World, c: Id, creator: Option<Creator>, company: Option<Id>, limit: int)
    ensures
      var (w', ok) := (Step(w, CreateCargo(c, creator, company, limit)).world, Step(w, CreateCargo(c, creator,
          company, limit)).ok);
      && (ok <==>
            && c !in w.cargos
            && forall d | creator == Some(Dispatcher(d)) && limit > 0 ::
                 |set b | b in w.cargos && !w.cargos[b].deleted && w.cargos[b].creator == Some(Dispatcher(d))| < limit)
      && (ok ==>
            && OnlyCargo(w, w', c)
            && w'.cargos[c].status == PendingModeration && !w'.cargos[c].deleted && w'.cargos[c].company == company
            && (creator.Some? ==> w'.cargos[c].creator == creator)
            && (creator.None? && company.Some? ==> w'.cargos[c].creator == Some(Company(company.value)))
            && (creator.None? && company.None? ==> w'.cargos[c].creator == None))
  {
    if creator.Some? && creator.value.Dispatcher? {
      var d := creator.value.id;
      assert CreatedBy(w.cargos, d) ==
        set b | b in w.cargos && !w.cargos[b].deleted && w.cargos[b].creator == Some(Dispatcher(d));
    }
  }

  lemma PatchCargoStatusEffect(w: World, c: Id, s: CargoStatus)
    ensures
      var out := Step(w, PatchCargoStatus(c, s));
      && (out.ok <==> Undeleted(w, c) && (w.cargos[c].status, s) in CARGO_TRANSITIONS)
      && (out.ok ==> OnlyCargo(w, out.world, c) && NewStatus(w, out.world, c, s))
  {
    if Undeleted(w, c) { CargoTransitions(w.cargos[c].status, s); }
  }

  /** Company visibility is what the admin asked for, except for a dispatcher's cargo. */
  lemma ModerationAcceptEffect(w: World, c: Id, wantCompany: bool)
    ensures
      var out := Step(w, ModerationAccept(c, wantCompany));
      && (out.ok <==> Undeleted(w, c) && w.cargos[c].status == PendingModeration)
      && (out.ok ==>
            && OnlyCargo(w, out.world, c)
            && (NewStatus(w, out.world, c, SearchingCompany) <==>
                  wantCompany && forall d :: w.cargos[c].creator != Some(Dispatcher(d)))
            && (NewStatus(w, out.world, c, SearchingAll) || NewStatus(w, out.world, c, SearchingCompany)))
  {
    if Undeleted(w, c) && w.cargos[c].creator.Some? && w.cargos[c].creator.value.Dispatcher? {
      assert w.cargos[c].creator == Some(Dispatcher(w.cargos[c].creator.value.id));
    }
  }

  lemma ModerationRejectEffect(w: World, c: Id, blankReason: bool)
    ensures
      var out := Step(w, ModerationReject(c, blankReason));
      && (out.ok <==> !blankReason && Undeleted(w, c) && w.cargos[c].status == PendingModeration)
      && (out.ok ==> OnlyCargo(w, out.world, c) && NewStatus(w, out.world, c, Refused))
  {
  }

  /** Deletion always succeeds; an undeleted row is marked and keeps its columns. */
  lemma DeleteCargoEffect(w: World, c: Id)
    ensures
      var out := Step(w, DeleteCargo(c));
      && out.ok && !Undeleted(out.world, c)
      && (c !in w.cargos ==> out.world == w)
      && (c in w.cargos ==>
            && OnlyCargo(w, out.world, c)
            && out.world.cargos[c].deleted
            && out.world.cargos[c] == w.cargos[c].(deleted := true))
  {
  }

  /* ---------- offers ---------- */

  lemma CreateOfferEffect(w: World, o: Id, c: Id, carrier: Id)
    ensures
      var out := Step(w, CreateOffer(o, c, carrier));
      && (out.ok <==>
            && o !in w.offers && Undeleted(w, c)
            && (|| w.cargos[c].status == SearchingAll
                || (&& w.cargos[c].status == SearchingCompany
                    && carrier in w.drivers && w.drivers[carrier].Some? && w.cargos[c].company == w.drivers[carrier])))
      && (out.ok ==>
            && out.world.offers == w.offers[o := Offer(c, carrier, OfferPending)]
            && out.world.cargos == w.cargos && out.world.trips == w.trips
            && out.world.recs == w.recs && out.world.drivers == w.drivers)
  {
  }

  /** After an acceptance of o on cargo c: o is ACCEPTED, every other offer that was pending on c is
      REJECTED, and no other offer changed. */
  ghost predicate OneWins(offers: map<Id, Offer>, offers': map<Id, Offer>, o: Id, c: Id) {
    && offers'.Keys == offers.Keys + {o}
    && o in offers' && offers'[o].status == OfferAccepted && offers'[o].cargo == c
    && (forall p | p in offers && p != o && offers[p].cargo == c && offers[p].status == OfferPending ::
          offers'[p].status == OfferRejected && offers'[p].cargo == c && offers'[p].carrier == offers[p].carrier)
    && (forall p | p in offers && p != o && (offers[p].cargo != c || offers[p].status != OfferPending) ::
          offers'[p] == offers[p])
  }

  /** The trip of an acceptance: inserted under a new id, for the carrier if the carrier is a driver. */
  ghost predicate TripOpened(w: World, w': World, t: Id, c: Id, o: Id, carrier: Id) {
    && (t in w.trips ==> w'.trips == w.trips)
    && (t !in w.trips ==>
          && w'.trips.Keys == w.trips.Keys + {t}
          && (forall u | u in w.trips :: w'.trips[u] == w.trips[u])
          && w'.trips[t].cargo == c && w'.trips[t].offer == o && w'.trips[t].status == PendingDriver
          && (carrier in w.drivers ==> w'.trips[t].driver == Some(carrier))
          && (carrier !in w.drivers ==> w'.trips[t].driver == None))
  }

  /** An undeleted cargo is ASSIGNED, whatever it was; a deleted one stays as it is. */
  ghost predicate CargoTaken(w: World, w': World, c: Id) {
    && w'.cargos.Keys == w.cargos.Keys
    && (forall d | d in w.cargos && (d != c || w.cargos[d].deleted) :: w'.cargos[d] == w.cargos[d])
    && (Undeleted(w, c) ==> NewStatus(w, w', c, Assigned))
  }

  lemma AcceptTxRows(w: World, o: Id)
    requires OfferIs(w, o, OfferPending)
    ensures OneWins(w.offers, AcceptTx(w, o).offers, o, w.offers[o].cargo)
    ensures AcceptTx(w, o).offers[o] == w.offers[o].(status := OfferAccepted)
    ensures CargoTaken(w, AcceptTx(w, o), w.offers[o].cargo)
  {
  }

  lemma TripStarts(w: World, w2: World, t: Id, c: Id, o: Id, carrier: Id)
    requires w2.trips == w.trips && w2.drivers == w.drivers
    ensures
      var w' := StartTrip(w2, t, c, o, carrier);
      && TripOpened(w, w', t, c, o, carrier)
      && w'.offers == w2.offers && w'.cargos == w2.cargos && w'.recs == w2.recs && w'.drivers == w.drivers
  {
  }

  lemma AcceptOfferTables(w: World, o: Id, t: Id)
    requires OfferIs(w, o, OfferPending)
    ensures
      var w', w2 := Step(w, AcceptOffer(o, t)).world, AcceptTx(w, o);
      && w'.offers == w2.offers && w'.cargos == w2.cargos && w'.recs == w.recs && w'.drivers == w.drivers
      && TripOpened(w, w', t, w.offers[o].cargo, o, w.offers[o].carrier)
  {
    TripStarts(w, AcceptTx(w, o), t, w.offers[o].cargo, o, w.offers[o].carrier);
  }

  /** Success needs a pending offer and nothing else, not even a searching cargo. */
  lemma AcceptOfferSucceedsIff(w: World, o: Id, t: Id)
    ensures Step(w, AcceptOffer(o, t)).ok <==> o in w.offers && w.offers[o].status == OfferPending
  {
  }

  lemma SameTablesTaken(w: World, w2: World, w': World, o: Id, c: Id)
    requires OneWins(w.offers, w2.offers, o, c) && CargoTaken(w, w2, c)
    requires w'.offers == w2.offers && w'.cargos == w2.cargos
    ensures OneWins(w.offers, w'.offers, o, c) && CargoTaken(w, w', c)
  {
  }

  lemma AcceptOfferEffect(w: World, o: Id, t: Id)
    requires Step(w, AcceptOffer(o, t)).ok && o in w.offers
    ensures
      var w' := Step(w, AcceptOffer(o, t)).world;
      && OneWins(w.offers, w'.offers, o, w.offers[o].cargo)
      && w'.offers[o].carrier == w.offers[o].carrier
      && CargoTaken(w, w', w.offers[o].cargo)
      && TripOpened(w, w', t, w.offers[o].cargo, o, w.offers[o].carrier)
      && w'.recs == w.recs && w'.drivers == w.drivers
  {
    AcceptOfferSucceedsIff(w, o, t);
    AcceptTxRows(w, o);
    AcceptOfferTables(w, o, t);
    SameTablesTaken(w, AcceptTx(w, o), Step(w, AcceptOffer(o, t)).world, o, w.offers[o].cargo);
  }

  lemma RejectOfferEffect(w: World, o: Id, dispatcher: Id)
    ensures
      var out := Step(w, RejectOffer(o, dispatcher));
      && (out.ok <==>
            && o in w.offers && w.offers[o].status == OfferPending && Undeleted(w, w.offers[o].cargo)
            && w.cargos[w.offers[o].cargo].creator == Some(Dispatcher(dispatcher)))
      && (out.ok ==>
            && out.world.offers.Keys == w.offers.Keys
            && out.world.offers[o].status == OfferRejected
            && out.world.offers[o].cargo == w.offers[o].cargo && out.world.offers[o].carrier == w.offers[o].carrier
            && (forall p | p in w.offers && p != o :: out.world.offers[p] == w.offers[p])
            && out.world.cargos == w.cargos && out.world.trips == w.trips
            && out.world.recs == w.recs && out.world.drivers == w.drivers)
  {
  }

  /* ---------- recommendations ---------- */

  ghost predicate OnlyRec(w: World, w': World, c: Id, driver: Id) {
    && w'.cargos == w.cargos && w'.offers == w.offers && w'.trips == w.trips && w'.drivers == w.drivers
    && RecRow(w, w', c, driver)
  }

  ghost predicate RecRow(w: World, w': World, c: Id, driver: Id) {
    && w'.recs.Keys == w.recs.Keys + {(c, driver)}
    && forall k | k in w.recs && k != (c, driver) :: w'.recs[k] == w.recs[k]
  }

  lemma RecommendEffect(w: World, c: Id, driver: Id, dispatcher: Id)
    ensures
      var out := Step(w, Recommend(c, driver, dispatcher));
      && (out.ok <==>
            && Undeleted(w, c) && w.cargos[c].status in {SearchingAll, SearchingCompany}
            && w.cargos[c].creator == Some(Dispatcher(dispatcher)) && driver in w.drivers)
      && (out.ok ==>
            && OnlyRec(w, out.world, c, driver)
            && out.world.recs[(c, driver)] == Rec(dispatcher, RecPending))
  {
  }

  lemma AcceptRecommendationSucceedsIff(w: World, c: Id, driver: Id, o: Id, t: Id)
    ensures Step(w, AcceptRecommendation(c, driver, o, t)).ok <==>
              && (c, driver) in w.recs && w.recs[(c, driver)].status == RecPending
              && Undeleted(w, c) && w.cargos[c].status in {SearchingAll, SearchingCompany}
              && o !in w.offers
  {
  }

  /** The recommendation is ACCEPTED, a new offer of the driver on the cargo is ACCEPTED, its pending
      rivals are REJECTED, the cargo is ASSIGNED and the trip opened. */
  lemma AcceptRecommendationEffect(w: World, c: Id, driver: Id, o: Id, t: Id)
    requires Step(w, AcceptRecommendation(c, driver, o, t)).ok
    ensures
      var w' := Step(w, AcceptRecommendation(c, driver, o, t)).world;
      && RecRow(w, w', c, driver)
      && w'.recs[(c, driver)] == Rec(w.recs[(c, driver)].dispatcher, RecAccepted)
      && OneWins(w.offers, w'.offers, o, c) && w'.offers[o] == Offer(c, driver, OfferAccepted)
      && CargoTaken(w, w', c) && w'.cargos[c].status == Assigned
      && TripOpened(w, w', t, c, o, driver)
      && w'.drivers == w.drivers
  {
    var w1 := w.(offers := w.offers[o := Offer(c, driver, OfferPending)]);
    AcceptRecommendationSucceedsIff(w, c, driver, o, t);
    AcceptTxRows(w1, o);
    AcceptRecommendationTables(w, c, driver, o, t);
    TakenByNewOffer(w, AcceptTx(w1, o), Step(w, AcceptRecommendation(c, driver, o, t)).world, c, driver, o);
  }

  lemma TakenByNewOffer(w: World, w2: World, w': World, c: Id, driver: Id, o: Id)
    requires o !in w.offers && OneWins(w.offers[o := Offer(c, driver, OfferPending)], w2.offers, o, c)
    requires CargoTaken(w.(offers := w.offers[o := Offer(c, driver, OfferPending)]), w2, c) && Undeleted(w, c)
    requires w'.offers == w2.offers && w'.cargos == w2.cargos
    ensures OneWins(w.offers, w'.offers, o, c) && CargoTaken(w, w', c) && w'.cargos[c].status == Assigned
  {
  }

  lemma AcceptRecommendationTables(w: World, c: Id, driver: Id, o: Id, t: Id)
    requires Step(w, AcceptRecommendation(c, driver, o, t)).ok
    ensures
      var w' := Step(w, AcceptRecommendation(c, driver, o, t)).world;
      var w2 := AcceptTx(w.(offers := w.offers[o := Offer(c, driver, OfferPending)]), o);
      && w'.offers == w2.offers && w'.cargos == w2.cargos && w'.drivers == w.drivers
      && w'.recs == w.recs[(c, driver) := Rec(w.recs[(c, driver)].dispatcher, RecAccepted)]
      && TripOpened(w, w', t, c, o, driver)
  {
  }

  lemma DeclineRecommendationEffect(w: World, c: Id, driver: Id)
    ensures
      var out := Step(w, DeclineRecommendation(c, driver));
      && (out.ok <==> (c, driver) in w.recs && w.recs[(c, driver)].status == RecPending)
      && (out.ok ==>
            && OnlyRec(w, out.world, c, driver)
            && out.world.recs[(c, driver)] == Rec(w.recs[(c, driver)].dispatcher, RecDeclined))
  {
  }

  /* ---------- trips ---------- */

  /** A trip that waits for its driver can be given to another one, and to the same one again. */
  lemma AssignDriverEffect(w: World, t: Id, driver: Id)
    ensures
      var out := Step(w, AssignDriver(t, driver));
      && (out.ok <==> t in w.trips && w.trips[t].status == PendingDriver && driver in w.drivers)
      && (out.ok ==>
            OnlyTrip(w, out.world, t)
            && out.world.trips[t].driver == Some(driver) && out.world.trips[t].status == PendingDriver)
  {
  }

  lemma ConfirmDriverEffect(w: World, t: Id, driver: Id)
    ensures
      var out := Step(w, ConfirmDriver(t, driver));
      && (out.ok <==> t in w.trips && w.trips[t].status == PendingDriver && w.trips[t].driver == Some(driver))
      && (out.ok ==>
            OnlyTrip(w, out.world, t)
            && out.world.trips[t].driver == Some(driver) && out.world.trips[t].status == TripAssigned)
  {
  }

  lemma RejectDriverEffect(w: World, t: Id, driver: Id)
    ensures
      var out := Step(w, RejectDriver(t, driver));
      && (out.ok <==> t in w.trips && w.trips[t].status == PendingDriver && w.trips[t].driver == Some(driver))
      && (out.ok ==>
            OnlyTrip(w, out.world, t)
            && out.world.trips[t].driver == None && out.world.trips[t].status == PendingDriver)
  {
  }

  /** The driver's request moves the trip; LOADING takes an ASSIGNED cargo to IN_PROGRESS, COMPLETED takes
      one that is IN_PROGRESS or IN_TRANSIT to COMPLETED, and otherwise the cargo stays. */
  lemma PatchTripStatusEffect(w: World, t: Id, driver: Id, s: TripStatus)
    ensures
      var out := Step(w, PatchTripStatus(t, driver, s));
      && (out.ok <==>
            && t in w.trips && w.trips[t].driver == Some(driver)
            && s in {Loading, EnRoute, Unloading, TripCompleted, TripCancelled}
            && (w.trips[t].status, s) in TRIP_TRANSITIONS)
      && (out.ok ==>
            && TripRow(w, out.world, t)
            && out.world.trips[t].driver == Some(driver) && out.world.trips[t].status == s
            && CargoFollows(w, out.world, w.trips[t].cargo, s)
            && out.world.offers == w.offers && out.world.recs == w.recs && out.world.drivers == w.drivers)
  {
    if t in w.trips { TripTransitions(w.trips[t].status, s); }
    if Step(w, PatchTripStatus(t, driver, s)).ok {
      SyncEffect(SetTrip(w, t, w.trips[t].(status := s)), w.trips[t].cargo, s);
    }
  }

  ghost predicate CargoFollows(w: World, w': World, c: Id, s: TripStatus) {
    if Undeleted(w, c) && s == Loading && w.cargos[c].status == Assigned then
      NewStatus(w, w', c, InProgress) && CargosBut(w, w', c)
    else if Undeleted(w, c) && s == TripCompleted && w.cargos[c].status in {InProgress, InTransit} then
      NewStatus(w, w', c, Completed) && CargosBut(w, w', c)
    else w'.cargos == w.cargos
  }

  ghost predicate CargosBut(w: World, w': World, c: Id) {
    && w'.cargos.Keys == w.cargos.Keys
    && forall d | d in w.cargos && d != c :: w'.cargos[d] == w.cargos[d]
  }

  lemma SyncEffect(w: World, c: Id, s: TripStatus)
    ensures CargoFollows(w, SyncCargo(w, c, s), c, s)
    ensures SyncCargo(w, c, s).trips == w.trips && SyncCargo(w, c, s).offers == w.offers
    ensures SyncCargo(w, c, s).recs == w.recs && SyncCargo(w, c, s).drivers == w.drivers
  {
  }

  /* ---------- drivers ---------- */

  lemma PutDriverEffect(w: World, driver: Id, company: Option<Id>)
    ensures
      var out := Step(w, PutDriver(driver, company));
      && out.ok && out.world.drivers == w.drivers[driver := company]
      && out.world.cargos == w.cargos && out.world.offers == w.offers
      && out.world.trips == w.trips && out.world.recs == w.recs
  {
  }

  /** A driver of some trip cannot go; otherwise the recommendations go with the driver. */
  lemma RemoveDriverEffect(w: World, driver: Id)
    ensures
      var out := Step(w, RemoveDriver(driver));
      && (out.ok <==> driver in w.drivers && forall t | t in w.trips :: w.trips[t].driver != Some(driver))
      && (out.ok ==>
            && out.world.drivers.Keys == w.drivers.Keys - {driver}
            && (forall d | d in w.drivers && d != driver :: out.world.drivers[d] == w.drivers[d])
            && (forall k :: k in out.world.recs <==> k in w.recs && k.1 != driver)
            && (forall k | k in out.world.recs :: out.world.recs[k] == w.recs[k])
            && out.world.cargos == w.cargos && out.world.offers == w.offers && out.world.trips == w.trips)
  {
  }

  /* ---------- recommendations over runs ---------- */

  predicate RecIsAccepted(w: World, c: Id, driver: Id) {
    (c, driver) in w.recs && w.recs[(c, driver)].status == RecAccepted
  }

  /** The successful requests that write the row of (c, driver). */
  predicate WritesRec(e: Event, c: Id, driver: Id) {
    match e
    case Recommend(d, r, _) => d == c && r == driver
    case DeclineRecommendation(d, r) => d == c && r == driver
    case RemoveDriver(r) => r == driver
    case _ => false
  }

  predicate AcceptsRec(e: Event, c: Id, driver: Id) {
    e.AcceptRecommendation? && e.cargo == c && e.driver == driver
  }

  lemma AcceptStepRec(w: World, e: Event, c: Id, driver: Id)
    requires e.AcceptRecommendation?
    ensures RecIsAccepted(Step(w, e).world, c, driver) <==>
              (AcceptsRec(e, c, driver) && Step(w, e).ok) || RecIsAccepted(w, c, driver)
  {
    if Step(w, e).ok { AcceptRecommendationTables(w, e.cargo, e.driver, e.newOffer, e.newTrip); }
  }

  lemma WriteStepRec(w: World, e: Event, c: Id, driver: Id)
    requires e.Recommend? || e.DeclineRecommendation? || e.RemoveDriver?
    ensures RecIsAccepted(Step(w, e).world, c, driver) <==>
              RecIsAccepted(w, c, driver) && !(WritesRec(e, c, driver) && Step(w, e).ok)
  {
  }

  lemma RecStep(w: World, e: Event, c: Id, driver: Id)
    ensures RecIsAccepted(Step(w, e).world, c, driver) <==>
              || (AcceptsRec(e, c, driver) && Step(w, e).ok)
              || (RecIsAccepted(w, c, driver) && !(WritesRec(e, c, driver) && Step(w, e).ok))
  {
    if e.AcceptRecommendation? {
      AcceptStepRec(w, e, c, driver);
    } else if e.Recommend? || e.DeclineRecommendation? || e.RemoveDriver? {
      WriteStepRec(w, e, c, driver);
    } else if e.PatchTripStatus? {
      PatchTripStatusEffect(w, e.trip, e.driver, e.tripStatus);
    } else {
      OtherStepsKeepRecs(w, e);
    }
  }

  lemma OtherStepsKeepRecs(w: World, e: Event)
    requires !e.Recommend? && !e.DeclineRecommendation? && !e.RemoveDriver? && !e.AcceptRecommendation? &&
          !e.PatchTripStatus?
    ensures Step(w, e).world.recs == w.recs
  {
  }

  /** The last successful request of the run that wrote the row of (c, driver). */
  function LastOnRec(es: seq<Event>, c: Id, driver: Id): Option<Event> {
    if es == [] then None
    else
      var n := |es| - 1;
      if (WritesRec(es[n], c, driver) || AcceptsRec(es[n], c, driver)) && Step(Run(es[..n]), es[n]).ok then Some(es[n])
      else LastOnRec(es[..n], c, driver)
  }

  /** In every run the recommendation of c to the driver is ACCEPTED exactly if the driver's acceptance is
      the last successful request on it. */
  lemma {:induction false} RecAcceptedIff(es: seq<Event>, c: Id, driver: Id)
    ensures RecIsAccepted(Run(es), c, driver) <==>
              LastOnRec(es, c, driver).Some? && AcceptsRec(LastOnRec(es, c, driver).value, c, driver)
  {
    if es != [] {
      var n := |es| - 1;
      RecAcceptedIff(es[..n], c, driver);
      RecStep(Run(es[..n]), es[n], c, driver);
    }
  }
}
