/** Which statuses without successors are final. */
module LifecycleTerminal {
  import opened Lifecycle
  import opened LifecycleInvariants
  import opened LifecycleSafety

  /** In any state whatever, a request takes an undeleted cargo out of a status without successors
      exactly when it accepts an offer pending on it; then it is ASSIGNED. */
  lemma TerminalStep(w: World, e: Event, c: Id)
    requires Live(w, c) && CargoNext(w.cargos[c].status) == []
    ensures c in Step(w, e).world.cargos
    ensures Step(w, e).world.cargos[c].status != w.cargos[c].status
       <==> e.AcceptOffer? && OfferIs(w, e.offer, OfferPending) && w.offers[e.offer].cargo == c
    ensures Step(w, e).world.cargos[c].status in {w.cargos[c].status, Assigned}
  {
    if e.PatchTripStatus? {
      TerminalUnderTrip(w, e.trip, e.driver, e.tripStatus, c);
    } else if e.AcceptOffer? {
      TerminalUnderOffer(w, e.offer, e.newTrip, c);
    }
  }

  lemma TerminalUnderOffer(w: World, o: Id, t: Id, c: Id)
    requires Live(w, c) && CargoNext(w.cargos[c].status) == []
    ensures
      var w' := StepAcceptOffer(w, o, t).world;
      && c in w'.cargos
      && w'.cargos[c].status ==
         if OfferIs(w, o, OfferPending) && w.offers[o].cargo == c then Assigned else w.cargos[c].status
  {
  }

  lemma TerminalUnderTrip(w: World, t: Id, driver: Id, s: TripStatus, c: Id)
    requires Live(w, c) && CargoNext(w.cargos[c].status) == []
    ensures
      var w' := StepPatchTripStatus(w, t, driver, s).world;
      c in w'.cargos && w'.cargos[c].status == w.cargos[c].status
  {
    if StepPatchTripStatus(w, t, driver, s).ok {
      var w1 := SetTrip(w, t, w.trips[t].(status := s));
      assert SyncCargo(w1, w.trips[t].cargo, s).cargos[c].status == w.cargos[c].status;
    }
  }

  /** COMPLETED and CANCELLED are not final. In every run a request takes an undeleted cargo out of a
      status without successors exactly when it accepts an offer still pending on it, and then the
      status was COMPLETED or CANCELLED and becomes ASSIGNED. */
  lemma TerminalStatusLeft(es: seq<Event>, e: Event, c: Id)
    requires Live(Run(es), c) && CargoNext(Run(es).cargos[c].status) == []
    ensures c in Step(Run(es), e).world.cargos
    ensures Step(Run(es), e).world.cargos[c].status != Run(es).cargos[c].status
       <==> e.AcceptOffer? && OfferIs(Run(es), e.offer, OfferPending) && Run(es).offers[e.offer].cargo == c
    ensures Step(Run(es), e).world.cargos[c].status != Run(es).cargos[c].status ==>
              Run(es).cargos[c].status in {Completed, Cancelled} && Step(Run(es), e).world.cargos[c].status == Assigned
  {
    TerminalStep(Run(es), e, c);
    StatusesNeverReached(es);
  }

  lemma DeletedStep(w: World, e: Event, c: Id)
    requires c in w.cargos && w.cargos[c].deleted
    ensures c in Step(w, e).world.cargos && Step(w, e).world.cargos[c] == w.cargos[c]
  {
    if e.PatchTripStatus? {
      DeletedUnderTrip(w, e.trip, e.driver, e.tripStatus, c);
    }
  }

  lemma DeletedUnderTrip(w: World, t: Id, driver: Id, s: TripStatus, c: Id)
    requires c in w.cargos && w.cargos[c].deleted
    ensures
      var w' := StepPatchTripStatus(w, t, driver, s).world;
      c in w'.cargos && w'.cargos[c] == w.cargos[c]
  {
    if StepPatchTripStatus(w, t, driver, s).ok {
      var w1 := SetTrip(w, t, w.trips[t].(status := s));
      assert SyncCargo(w1, w.trips[t].cargo, s).cargos[c] == w.cargos[c];
    }
  }

  lemma RefusedStep(w: World, e: Event, c: Id)
    requires Inv(w) && c in w.cargos && w.cargos[c].status == Refused
    ensures c in Step(w, e).world.cargos && Step(w, e).world.cargos[c].status == Refused
  {
    if w.cargos[c].deleted {
      DeletedStep(w, e, c);
    } else {
      TerminalStep(w, e, c);
    }
  }

  /** REJECTED is final: no continuation of a run takes a cargo out of it. */
  lemma {:induction false} RejectedIsFinal(es: seq<Event>, more: seq<Event>, c: Id)
    requires c in Run(es).cargos && Run(es).cargos[c].status == Refused
    ensures c in Run(es + more).cargos && Run(es + more).cargos[c].status == Refused
  {
    if more == [] {
      assert es + more == es;
    } else {
      var n := |more| - 1;
      RejectedIsFinal(es, more[..n], c);
      assert (es + more)[..|es + more| - 1] == es + more[..n];
      RunKeepsInv(es + more[..n]);
      RefusedStep(Run(es + more[..n]), more[n], c);
    }
  }
}
