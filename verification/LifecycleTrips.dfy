/** Every accepted offer has its trip, as long as the ids proposed for trips are new. */
module LifecycleTrips {
  import opened Lifecycle
  import opened LifecycleInvariants
  import opened LifecycleSync

  /** The id that an accepting request proposes for its trip is not in use; the default of the column is
      uuid_generate_v4(). */
  predicate NewTripId(w: World, e: Event) {
    match e
    case AcceptOffer(_, t) => t !in w.trips
    case AcceptRecommendation(_, _, _, t) => t !in w.trips
    case _ => true
  }

  ghost predicate NewTripIds(es: seq<Event>) {
    forall k | 0 <= k < |es| :: NewTripId(Run(es[..k]), es[k])
  }

  predicate TripOf(w: World, t: Id, o: Id, c: Id) {
    t in w.trips && w.trips[t].offer == o && w.trips[t].cargo == c
  }

  ghost predicate AllTaken(w: World) {
    forall o, c :: Taken(w, o, c) ==> exists t :: TripOf(w, t, o, c)
  }

  /** Nothing newly accepted, and trips keep their contract. */
  ghost predicate NothingTaken(w: World, w': World) {
    && (forall o, c :: Taken(w', o, c) ==> Taken(w, o, c))
    && (forall t, o, c :: TripOf(w, t, o, c) ==> TripOf(w', t, o, c))
  }

  lemma NothingTakenKeeps(w: World, w': World)
    requires AllTaken(w) && NothingTaken(w, w')
    ensures AllTaken(w')
  {
    forall o, c | Taken(w', o, c) ensures exists t :: TripOf(w', t, o, c) {
      var t :| TripOf(w, t, o, c);
      assert TripOf(w', t, o, c);
    }
  }

  lemma TripStatusTakesNothing(w: World, t: Id, driver: Id, s: TripStatus)
    ensures NothingTaken(w, StepPatchTripStatus(w, t, driver, s).world)
  {
    var w' := StepPatchTripStatus(w, t, driver, s).world;
    assert w'.offers == w.offers;
  }

  lemma OtherStepsTakeNothing(w: World, e: Event)
    requires !e.AcceptOffer? && !e.AcceptRecommendation?
    ensures NothingTaken(w, Step(w, e).world)
  {
    if e.PatchTripStatus? {
      TripStatusTakesNothing(w, e.trip, e.driver, e.tripStatus);
    }
  }

  /** One offer is accepted and its trip is inserted. */
  ghost predicate TakenWithTrip(w: World, w': World, o: Id, c: Id, t: Id) {
    && (forall p, d :: Taken(w', p, d) ==> Taken(w, p, d) || (p == o && d == c))
    && (forall u, p, d :: TripOf(w, u, p, d) ==> TripOf(w', u, p, d))
    && TripOf(w', t, o, c)
  }

  lemma TakenWithTripKeeps(w: World, w': World, o: Id, c: Id, t: Id)
    requires AllTaken(w) && TakenWithTrip(w, w', o, c, t)
    ensures AllTaken(w')
  {
    forall p, d | Taken(w', p, d) ensures exists u :: TripOf(w', u, p, d) {
      if p == o && d == c {
        assert TripOf(w', t, p, d);
      } else {
        var u :| TripOf(w, u, p, d);
        assert TripOf(w', u, p, d);
      }
    }
  }

  lemma AcceptOfferTakes(w: World, o: Id, t: Id)
    requires References(w) && OfferIs(w, o, OfferPending) && t !in w.trips
    ensures TakenWithTrip(w, StepAcceptOffer(w, o, t).world, o, w.offers[o].cargo, t)
  {
    AcceptTxShape(w, o);
  }

  lemma StartTripTakes(w: World, w2: World, t: Id, c: Id, o: Id, carrier: Id)
    requires w2.trips == w.trips && t !in w.trips
    requires forall p, d :: Taken(w2, p, d) ==> Taken(w, p, d) || (p == o && d == c)
    ensures TakenWithTrip(w, StartTrip(w2, t, c, o, carrier), o, c, t)
  {
    assert forall p, d :: Taken(StartTrip(w2, t, c, o, carrier), p, d) <==> Taken(w2, p, d);
  }

  lemma NewOfferTakesNothing(w: World, o: Id, c: Id, carrier: Id)
    requires References(w) && c in w.cargos && o !in w.offers
    ensures
      var w1 := w.(offers := w.offers[o := Offer(c, carrier, OfferPending)]);
      References(w1) && forall p, d :: Taken(w1, p, d) ==> Taken(w, p, d)
  {
  }

  lemma AcceptRecommendationTakes(w: World, c: Id, driver: Id, o: Id, t: Id)
    requires References(w) && StepAcceptRecommendation(w, c, driver, o, t).ok && t !in w.trips
    ensures TakenWithTrip(w, StepAcceptRecommendation(w, c, driver, o, t).world, o, c, t)
  {
    var w1 := w.(offers := w.offers[o := Offer(c, driver, OfferPending)]);
    NewOfferTakesNothing(w, o, c, driver);
    AcceptTxShape(w1, o);
    var w2 := SetRec(AcceptTx(w1, o), c, driver, RecAccepted);
    assert forall p, d :: Taken(w2, p, d) <==> Taken(AcceptTx(w1, o), p, d);
    StartTripTakes(w, w2, t, c, o, driver);
  }

  lemma StepKeepsAllTaken(w: World, e: Event)
    requires Inv(w) && AllTaken(w) && NewTripId(w, e)
    ensures AllTaken(Step(w, e).world)
  {
    if e.AcceptOffer? {
      if OfferIs(w, e.offer, OfferPending) {
        AcceptOfferTakes(w, e.offer, e.newTrip);
        TakenWithTripKeeps(w, Step(w, e).world, e.offer, w.offers[e.offer].cargo, e.newTrip);
      }
    } else if e.AcceptRecommendation? {
      if Step(w, e).ok {
        AcceptRecommendationTakes(w, e.cargo, e.driver, e.newOffer, e.newTrip);
        TakenWithTripKeeps(w, Step(w, e).world, e.newOffer, e.cargo, e.newTrip);
      }
    } else {
      OtherStepsTakeNothing(w, e);
      NothingTakenKeeps(w, Step(w, e).world);
    }
  }

  lemma {:induction false} RunKeepsAllTaken(es: seq<Event>)
    requires NewTripIds(es)
    ensures AllTaken(Run(es))
  {
    if es != [] {
      var before := es[..|es| - 1];
      forall k | 0 <= k < |before| ensures NewTripId(Run(before[..k]), before[k]) {
        assert before[..k] == es[..k];
      }
      RunKeepsAllTaken(before);
      RunKeepsInv(before);
      StepKeepsAllTaken(Run(before), es[|es| - 1]);
    }
  }

  /** In every run with new trip ids an accepted offer has exactly one trip, which is the only trip of
      the cargo. */
  lemma AcceptedOfferHasOneTrip(es: seq<Event>, o: Id, c: Id)
    requires NewTripIds(es) && Taken(Run(es), o, c)
    ensures exists t :: TripOf(Run(es), t, o, c)
    ensures forall t, u | TripOf(Run(es), t, o, c) && u in Run(es).trips && Run(es).trips[u].cargo == c :: u == t
  {
    RunKeepsAllTaken(es);
    RunKeepsInv(es);
  }

  /** The status of a cargo, given whether there is a trip and what its status is. */
  ghost predicate StatusFits(w: World, c: Id)
    requires c in w.cargos
  {
    if HasAccepted(w, c) then exists t, o :: TripOf(w, t, o, c) && Fits(w.trips[t].status, w.cargos[c].status)
    else
      && w.cargos[c].status in {PendingModeration, SearchingAll, SearchingCompany, Refused}
      && forall t | t in w.trips :: w.trips[t].cargo != c
  }

  /** So without manual patches the trip table says of every undeleted cargo what its status is: as its
      trip says if it has one, and otherwise a status before assignment. */
  lemma TripsDetermineStatus(es: seq<Event>, c: Id)
    requires NewTripIds(es) && Live(Run(es), c)
    requires forall k | 0 <= k < |es| :: !es[k].PatchCargoStatus?
    ensures StatusFits(Run(es), c)
  {
    var w := Run(es);
    RunSynced(es);
    RunKeepsInv(es);
    if HasAccepted(w, c) {
      var o :| Taken(w, o, c);
      AcceptedOfferHasOneTrip(es, o, c);
      var t :| TripOf(w, t, o, c);
    } else {
      forall t | t in w.trips ensures w.trips[t].cargo != c {
        assert Taken(w, w.trips[t].offer, w.trips[t].cargo);
      }
    }
  }
}
