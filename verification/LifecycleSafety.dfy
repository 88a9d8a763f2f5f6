/** What holds of every run of the freight lifecycle. */
module LifecycleSafety {
  import opened Lifecycle
  import opened LifecycleInvariants

  /* ---------- tables ---------- */

  /** In every run a cargo has at most one accepted offer and at most one trip, the trip's offer is
      the accepted one, and an accepted offer leaves nothing pending on an undeleted, closed cargo. */
  lemma OneOfferOneTrip(es: seq<Event>, c: Id)
    ensures
      var w := Run(es);
      && (forall o1, o2 :: Taken(w, o1, c) && Taken(w, o2, c) ==> o1 == o2)
      && (HasAccepted(w, c) ==>
            && (forall p | p in w.offers && w.offers[p].cargo == c :: w.offers[p].status != OfferPending)
            && c in w.cargos
            && (w.cargos[c].deleted || w.cargos[c].status in {Assigned, InProgress, Completed, Cancelled}))
      && (forall t1, t2 | t1 in w.trips && t2 in w.trips && w.trips[t1].cargo == c && w.trips[t2].cargo == c ::
            t1 == t2)
      && (forall t | t in w.trips && w.trips[t].cargo == c :: Taken(w, w.trips[t].offer, c))
  {
    RunKeepsInv(es);
  }

  /** In every run an accepted recommendation stands for the accepted offer of that very driver, so
      a cargo has at most one accepted recommendation. */
  lemma OneAcceptedRecommendation(es: seq<Event>, c: Id, d1: Id, d2: Id)
    requires (c, d1) in Run(es).recs && Run(es).recs[(c, d1)].status == RecAccepted
    ensures exists o :: Taken(Run(es), o, c) && Run(es).offers[o].carrier == d1
    ensures (c, d2) in Run(es).recs && Run(es).recs[(c, d2)].status == RecAccepted ==> d1 == d2
  {
    RunKeepsInv(es);
    var w := Run(es);
    assert exists o :: Taken(w, o, (c, d1).0) && w.offers[o].carrier == (c, d1).1;
    if (c, d2) in w.recs && w.recs[(c, d2)].status == RecAccepted {
      assert exists o :: Taken(w, o, (c, d2).0) && w.offers[o].carrier == (c, d2).1;
    }
  }

  /** CREATED, IN_TRANSIT and DELIVERED are in the vocabulary but no run reaches them, and nothing
      is ever offered on a cargo that has not passed moderation. */
  lemma StatusesNeverReached(es: seq<Event>)
    ensures forall c | c in Run(es).cargos :: Run(es).cargos[c].status !in {Created, InTransit, Delivered}
    ensures forall o | o in Run(es).offers :: Run(es).offers[o].cargo in Run(es).cargos
              && Run(es).cargos[Run(es).offers[o].cargo].status !in {PendingModeration, Refused}
  {
    RunKeepsInv(es);
  }

  /* ---------- the trip's driver ---------- */

  /** Outside PENDING_DRIVER a trip has a driver, and unless the trip is cancelled that driver
      confirmed it. */
  lemma DriverWasConfirmed(es: seq<Event>, t: Id)
    requires t in Run(es).trips && Run(es).trips[t].status != PendingDriver
    ensures Run(es).trips[t].driver.Some?
    ensures Run(es).trips[t].status != TripCancelled ==>
              exists k :: ConfirmedAt(es, k, t, Run(es).trips[t].driver.value)
  {
    RunKeepsInv(es);
    if Run(es).trips[t].status != TripCancelled {
      ConfirmationHappened(es, t, Run(es).trips[t].driver.value);
    }
  }

  /** Request k of the run was a successful confirmation of trip t by driver d. */
  ghost predicate ConfirmedAt(es: seq<Event>, k: nat, t: Id, d: Id) {
    k < |es| && es[k] == ConfirmDriver(t, d) && Step(Run(es[..k]), es[k]).ok
  }

  lemma {:induction false} ConfirmationHappened(es: seq<Event>, t: Id, d: Id)
    requires DriverConfirmed(t, d) in Run(es).log
    ensures exists k :: ConfirmedAt(es, k, t, d)
  {
    var n := |es| - 1;
    NewConfirmations(Run(es[..n]), es[n], t, d);
    if DriverConfirmed(t, d) in Run(es[..n]).log {
      ConfirmationHappened(es[..n], t, d);
      var k: nat :| ConfirmedAt(es[..n], k, t, d);
      assert es[..n][..k] == es[..k];
      assert ConfirmedAt(es, k, t, d);
    } else {
      assert ConfirmedAt(es, n, t, d);
    }
  }

  lemma AcceptConfirmsNothing(w: World, o: Id, t: Id, d: Id)
    requires OfferIs(w, o, OfferPending)
    ensures DriverConfirmed(t, d) in AcceptTx(w, o).log <==> DriverConfirmed(t, d) in w.log
  {
  }

  lemma TripStatusConfirmsNothing(w: World, u: Id, driver: Id, s: TripStatus, t: Id, d: Id)
    ensures DriverConfirmed(t, d) in StepPatchTripStatus(w, u, driver, s).world.log <==> DriverConfirmed(t, d) in w.log
  {
    if StepPatchTripStatus(w, u, driver, s).ok {
      var w1 := SetTrip(w, u, w.trips[u].(status := s));
      assert SyncCargo(w1, w.trips[u].cargo, s).log == w.log
          || exists c, cs :: SyncCargo(w1, w.trips[u].cargo, s).log == w.log + [StatusWritten(c, cs)];
    }
  }

  lemma NewConfirmations(w: World, e: Event, t: Id, d: Id)
    ensures DriverConfirmed(t, d) in Step(w, e).world.log ==>
              DriverConfirmed(t, d) in w.log || (e == ConfirmDriver(t, d) && Step(w, e).ok)
  {
    if e.AcceptOffer? && Step(w, e).ok {
      AcceptConfirmsNothing(w, e.offer, t, d);
    } else if e.AcceptRecommendation? && Step(w, e).ok {
      var w1 := w.(offers := w.offers[e.newOffer := Offer(e.cargo, e.driver, OfferPending)]);
      AcceptConfirmsNothing(w1, e.newOffer, t, d);
    } else if e.PatchTripStatus? {
      TripStatusConfirmsNothing(w, e.trip, e.driver, e.tripStatus, t, d);
    }
  }

  lemma OtherStepsKeepTrips(w: World, e: Event)
    requires !e.AcceptOffer? && !e.AcceptRecommendation? && !e.PatchTripStatus?
    requires !e.AssignDriver? && !e.ConfirmDriver? && !e.RejectDriver?
    ensures Step(w, e).world.trips == w.trips
  {
  }

  lemma DriverStepFixesDriver(w: World, e: Event, t: Id)
    requires (e.AssignDriver? || e.ConfirmDriver? || e.RejectDriver?) && t in w.trips &&
          w.trips[t].status != PendingDriver
    ensures t in Step(w, e).world.trips && Step(w, e).world.trips[t] == w.trips[t]
  {
  }

  lemma StepFixesDriver(w: World, e: Event, t: Id)
    requires References(w) && t in w.trips && w.trips[t].status != PendingDriver
    ensures t in Step(w, e).world.trips
    ensures Step(w, e).world.trips[t].driver == w.trips[t].driver && Step(w, e).world.trips[t].status != PendingDriver
  {
    if e.PatchTripStatus? {
      TripStatusFixesDriver(w, e.trip, e.driver, e.tripStatus, t);
    } else if e.AcceptOffer? || e.AcceptRecommendation? {
      StartFixesDriver(w, e, t);
    } else if e.AssignDriver? || e.ConfirmDriver? || e.RejectDriver? {
      DriverStepFixesDriver(w, e, t);
    } else {
      OtherStepsKeepTrips(w, e);
    }
  }

  lemma TripStatusFixesDriver(w: World, u: Id, driver: Id, s: TripStatus, t: Id)
    requires t in w.trips && w.trips[t].status != PendingDriver
    ensures
      var w' := StepPatchTripStatus(w, u, driver, s).world;
      t in w'.trips && w'.trips[t].driver == w.trips[t].driver && w'.trips[t].status != PendingDriver
  {
    var w' := StepPatchTripStatus(w, u, driver, s).world;
    assert w'.trips == w.trips || w'.trips == w.trips[u := w.trips[u].(status := s)];
  }

  lemma StartFixesDriver(w: World, e: Event, t: Id)
    requires (e.AcceptOffer? || e.AcceptRecommendation?) && t in w.trips
    ensures t in Step(w, e).world.trips && Step(w, e).world.trips[t] == w.trips[t]
  {
    var w' := Step(w, e).world;
    assert w'.trips == w.trips || (e.newTrip !in w.trips && w'.trips[t] == w.trips[t]);
  }

  /** Once a trip left PENDING_DRIVER its driver is fixed for the rest of the run. */
  lemma {:induction false} DriverNeverChanges(es: seq<Event>, more: seq<Event>, t: Id)
    requires t in Run(es).trips && Run(es).trips[t].status != PendingDriver
    ensures t in Run(es + more).trips && Run(es + more).trips[t].status != PendingDriver
    ensures Run(es + more).trips[t].driver == Run(es).trips[t].driver
  {
    if more == [] {
      assert es + more == es;
    } else {
      var n := |more| - 1;
      DriverNeverChanges(es, more[..n], t);
      assert (es + more)[..|es + more| - 1] == es + more[..n];
      RunKeepsInv(es + more[..n]);
      StepFixesDriver(Run(es + more[..n]), more[n], t);
    }
  }
}
