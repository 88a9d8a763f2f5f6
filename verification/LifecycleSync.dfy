/** Without manual patches the status of a cargo is a function of its trip. */
module LifecycleSync {
  import opened Lifecycle
  import opened LifecycleInvariants

  predicate Fits(t: TripStatus, s: CargoStatus) {
    match t
    case PendingDriver => s == Assigned
    case TripAssigned => s == Assigned
    case Loading => s == InProgress
    case EnRoute => s == InProgress
    case Unloading => s == InProgress
    case TripCompleted => s == Completed
    case TripCancelled => s == Assigned || s == InProgress
  }

  /** Every undeleted cargo agrees with its trip; without an accepted offer it never left the market. */
  ghost predicate Synced(w: World) {
    && (forall t | t in w.trips && Live(w, w.trips[t].cargo) ::
          Fits(w.trips[t].status, w.cargos[w.trips[t].cargo].status))
    && (forall c | Live(w, c) && !HasAccepted(w, c) ::
          w.cargos[c].status in {PendingModeration, SearchingAll, SearchingCompany, Refused})
  }

  lemma AcceptOfferSynced(w: World, o: Id, t: Id)
    requires Inv(w) && Synced(w)
    ensures Synced(StepAcceptOffer(w, o, t).world)
  {
    if OfferIs(w, o, OfferPending) {
      AcceptTxSynced(w, o);
      StartTripSynced(AcceptTx(w, o), t, w.offers[o].cargo, o, w.offers[o].carrier);
    }
  }

  lemma AcceptedSynced(w: World, w': World, o: Id, c: Id)
    requires Synced(w) && OfferIs(w, o, OfferPending) && c == w.offers[o].cargo
    requires !exists t :: t in w.trips && w.trips[t].cargo == c
    requires AcceptedShape(w, w', o, c) && (forall d | d in w.cargos :: w'.cargos[d].deleted == w.cargos[d].deleted)
    ensures Synced(w') && (Live(w', c) ==> w'.cargos[c].status == Assigned)
  {
    assert Taken(w', o, c);
    forall d | Live(w', d) && !HasAccepted(w', d)
      ensures w'.cargos[d].status in {PendingModeration, SearchingAll, SearchingCompany, Refused}
    {
      assert d != c && forall p :: Taken(w, p, d) ==> Taken(w', p, d);
    }
  }

  lemma StartTripSynced(w: World, t: Id, c: Id, o: Id, carrier: Id)
    requires Synced(w) && (Live(w, c) ==> w.cargos[c].status == Assigned)
    ensures Synced(StartTrip(w, t, c, o, carrier))
  {
    var w' := StartTrip(w, t, c, o, carrier);
    assert forall p, d :: Taken(w', p, d) <==> Taken(w, p, d);
    assert forall d :: HasAccepted(w', d) <==> HasAccepted(w, d);
  }

  lemma RecTakenSynced(w: World, c: Id, driver: Id, o: Id, t: Id)
    requires Inv(w) && Synced(w) && (c, driver) in w.recs && (Live(w, c) ==> w.cargos[c].status == Assigned)
    ensures Synced(StartTrip(SetRec(w, c, driver, RecAccepted), t, c, o, driver))
  {
    var w' := SetRec(w, c, driver, RecAccepted);
    SameAcceptedSynced(w, w');
    StartTripSynced(w', t, c, o, driver);
  }

  lemma NewOfferSynced(w: World, o: Id, offer: Offer)
    requires Synced(w) && o !in w.offers && offer.status == OfferPending
    ensures Synced(w.(offers := w.offers[o := offer]))
  {
    var w' := w.(offers := w.offers[o := offer]);
    assert forall p, c :: Taken(w', p, c) <==> Taken(w, p, c);
    assert forall c :: HasAccepted(w', c) <==> HasAccepted(w, c);
  }

  lemma AcceptTxSynced(w: World, o: Id)
    requires Inv(w) && Synced(w) && OfferIs(w, o, OfferPending)
    ensures
      var w', c := AcceptTx(w, o), w.offers[o].cargo;
      Inv(w') && Synced(w') && (Live(w', c) ==> w'.cargos[c].status == Assigned)
  {
    AcceptTxShape(w, o);
    AcceptTxKeeps(w, o);
    AcceptedSynced(w, AcceptTx(w, o), o, w.offers[o].cargo);
  }

  lemma AcceptRecommendationSynced(w: World, c: Id, driver: Id, o: Id, t: Id)
    requires Inv(w) && Synced(w)
    ensures Synced(StepAcceptRecommendation(w, c, driver, o, t).world)
  {
    if StepAcceptRecommendation(w, c, driver, o, t).ok {
      InsertOfferKeeps(w, o, c, driver);
      NewOfferSynced(w, o, Offer(c, driver, OfferPending));
      var w1 := w.(offers := w.offers[o := Offer(c, driver, OfferPending)]);
      AcceptTxSynced(w1, o);
      RecTakenSynced(AcceptTx(w1, o), c, driver, o, t);
    }
  }

  lemma SameAcceptedSynced(w: World, w': World)
    requires Synced(w)
    requires forall o, c :: Taken(w', o, c) <==> Taken(w, o, c)
    requires forall t | t in w'.trips ::
               && t in w.trips && w'.trips[t].cargo == w.trips[t].cargo
               && w'.trips[t].status in {w.trips[t].status, TripAssigned}
               && (w'.trips[t].status != w.trips[t].status ==> w.trips[t].status == PendingDriver)
    requires forall c | Live(w', c) && Live(w, c) :: w'.cargos[c].status == w.cargos[c].status
    requires forall c | Live(w', c) && !Live(w, c) :: c !in w.cargos && w'.cargos[c].status == PendingModeration
    requires forall t | t in w.trips :: w.trips[t].cargo in w.cargos
    ensures Synced(w')
  {
    assert forall c :: HasAccepted(w', c) <==> HasAccepted(w, c);
  }

  lemma ModerationSynced(w: World, e: Event)
    requires Inv(w) && Synced(w) && (e.ModerationAccept? || e.ModerationReject?)
    ensures Synced(Step(w, e).world)
  {
    var w' := Step(w, e).world;
    assert forall p, d :: Taken(w', p, d) <==> Taken(w, p, d);
    assert forall d :: HasAccepted(w', d) <==> HasAccepted(w, d);
  }

  /** What a trip-status request does to the two tables it writes. */
  ghost predicate TripShape(w: World, w': World, t: Id, s: TripStatus) {
    && t in w.trips
    && s in TripNext(w.trips[t].status) && s != TripAssigned
    && w'.offers == w.offers
    && w'.trips == w.trips[t := w.trips[t].(status := s)]
    && w'.cargos.Keys == w.cargos.Keys
    && (forall c | c in w.cargos && (c != w.trips[t].cargo || w.cargos[c].deleted) :: w'.cargos[c] == w.cargos[c])
    && (Live(w, w.trips[t].cargo) ==>
          var c := w.trips[t].cargo;
          && !w'.cargos[c].deleted
          && w'.cargos[c].status ==
             (if s == Loading && w.cargos[c].status == Assigned then InProgress
              else if s == TripCompleted && w.cargos[c].status in {InProgress, InTransit} then Completed
              else w.cargos[c].status))
  }

  lemma TripStatusShape(w: World, t: Id, driver: Id, s: TripStatus)
    requires References(w) && StepPatchTripStatus(w, t, driver, s).ok
    ensures TripShape(w, StepPatchTripStatus(w, t, driver, s).world, t, s)
  {
  }

  lemma SameOffersSameAccepted(w: World, w': World)
    requires w'.offers == w.offers
    ensures forall d :: HasAccepted(w', d) <==> HasAccepted(w, d)
  {
    assert forall p, d :: Taken(w', p, d) <==> Taken(w, p, d);
  }

  lemma TripShapeSynced(w: World, w': World, t: Id, s: TripStatus)
    requires TripsFollowOffers(w) && Synced(w) && TripShape(w, w', t, s)
    ensures Synced(w')
  {
    var c := w.trips[t].cargo;
    SameOffersSameAccepted(w, w');
    assert HasAccepted(w, c) by { assert Taken(w, w.trips[t].offer, c); }
    forall u | u in w'.trips && Live(w', w'.trips[u].cargo)
      ensures Fits(w'.trips[u].status, w'.cargos[w'.trips[u].cargo].status)
    {
      if u != t { assert w.trips[u].cargo != c; }
    }
  }

  lemma CargoAndOfferStepsSynced(w: World, e: Event)
    requires References(w) && Synced(w) && (e.CreateCargo? || e.DeleteCargo? || e.CreateOffer? || e.RejectOffer?)
    ensures Synced(Step(w, e).world)
  {
    var w' := Step(w, e).world;
    assert forall p, d :: Taken(w', p, d) <==> Taken(w, p, d);
    SameAcceptedSynced(w, w');
  }

  lemma DriverStepsSynced(w: World, e: Event)
    requires References(w) && Synced(w) && (e.AssignDriver? || e.ConfirmDriver? || e.RejectDriver?)
    ensures Synced(Step(w, e).world)
  {
    SameAcceptedSynced(w, Step(w, e).world);
  }

  lemma OtherTablesSynced(w: World, e: Event)
    requires References(w) && Synced(w) && (e.Recommend? || e.DeclineRecommendation? || e.PutDriver? || e.RemoveDriver?)
    ensures Synced(Step(w, e).world)
  {
    SameAcceptedSynced(w, Step(w, e).world);
  }

  lemma StepSynced(w: World, e: Event)
    requires Inv(w) && Synced(w) && !e.PatchCargoStatus?
    ensures Synced(Step(w, e).world)
  {
    match e
    case AcceptOffer(o, t) => AcceptOfferSynced(w, o, t);
    case AcceptRecommendation(c, driver, o, t) => AcceptRecommendationSynced(w, c, driver, o, t);
    case ModerationAccept(_, _) => ModerationSynced(w, e);
    case ModerationReject(_, _) => ModerationSynced(w, e);
    case PatchTripStatus(t, driver, s) =>
      if Step(w, e).ok {
        TripStatusShape(w, t, driver, s);
        TripShapeSynced(w, Step(w, e).world, t, s);
      }
    case AssignDriver(_, _) => DriverStepsSynced(w, e);
    case ConfirmDriver(_, _) => DriverStepsSynced(w, e);
    case RejectDriver(_, _) => DriverStepsSynced(w, e);
    case CreateCargo(_, _, _, _) => CargoAndOfferStepsSynced(w, e);
    case DeleteCargo(_) => CargoAndOfferStepsSynced(w, e);
    case CreateOffer(_, _, _) => CargoAndOfferStepsSynced(w, e);
    case RejectOffer(_, _) => CargoAndOfferStepsSynced(w, e);
    case _ => OtherTablesSynced(w, e);
  }

  lemma {:induction false} RunSynced(es: seq<Event>)
    requires forall k | 0 <= k < |es| :: !es[k].PatchCargoStatus?
    ensures Synced(Run(es))
  {
    if es != [] {
      RunSynced(es[..|es| - 1]);
      RunKeepsInv(es[..|es| - 1]);
      StepSynced(Run(es[..|es| - 1]), es[|es| - 1]);
    }
  }

  /** In a run without manual status patches the status of an undeleted cargo is read off its trip. */
  lemma CargoFollowsTrip(es: seq<Event>, t: Id)
    requires forall k | 0 <= k < |es| :: !es[k].PatchCargoStatus?
    requires t in Run(es).trips && Live(Run(es), Run(es).trips[t].cargo)
    ensures
      var s := Run(es).cargos[Run(es).trips[t].cargo].status;
      match Run(es).trips[t].status
      case PendingDriver => s == Assigned
      case TripAssigned => s == Assigned
      case Loading => s == InProgress
      case EnRoute => s == InProgress
      case Unloading => s == InProgress
      case TripCompleted => s == Completed
      case TripCancelled => s == Assigned || s == InProgress
  {
    RunSynced(es);
  }
}
