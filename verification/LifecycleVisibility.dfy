/** Offers on company-only cargo come from drivers of that company. */
module LifecycleVisibility {
  import opened Lifecycle
  import opened LifecycleInvariants

  ghost predicate Restricted(w: World, c: Id) {
    StatusWritten(c, SearchingCompany) in w.log
  }

  ghost predicate OffersRespectCompany(w: World) {
    && (forall c | c in w.cargos && w.cargos[c].status == SearchingCompany :: Restricted(w, c))
    && (forall c | Restricted(w, c) :: c in w.cargos && w.cargos[c].status !in {PendingModeration, SearchingAll})
    && (forall c, d, dc, cc | OfferMade(c, d, dc, cc) in w.log ::
          && c in w.cargos && w.cargos[c].status !in {PendingModeration, Refused}
          && (Restricted(w, c) ==> dc.Some? && dc == cc && cc == w.cargos[c].company))
  }

  /** Nothing that the invariant reads was written. */
  lemma QuietKeeps(w: World, w': World)
    requires OffersRespectCompany(w)
    requires forall x | x in w'.log :: x in w.log || x.OfferTaken? || x.DriverConfirmed?
    requires forall x | x in w.log :: x in w'.log
    requires forall c | c in w.cargos ::
               && c in w'.cargos && w'.cargos[c].status == w.cargos[c].status
               && w'.cargos[c].company == w.cargos[c].company
    requires forall c | c in w'.cargos && c !in w.cargos :: w'.cargos[c].status == PendingModeration
    ensures OffersRespectCompany(w')
  {
    assert forall c :: Restricted(w', c) <==> Restricted(w, c);
  }

  lemma WriteKeeps(w: World, c: Id, s: CargoStatus)
    requires OffersRespectCompany(w) && c in w.cargos
    requires || s in CargoNext(w.cargos[c].status)
             || (s == Assigned && w.cargos[c].status !in {PendingModeration, Refused})
    requires w.cargos[c].status !in {Created, InTransit, Delivered}
    ensures OffersRespectCompany(WriteStatus(w, c, s))
  {
    var w' := WriteStatus(w, c, s);
    assert forall x :: x in w'.log <==> x in w.log || x == StatusWritten(c, s);
    assert forall d :: Restricted(w', d) <==> Restricted(w, d) || (d == c && s == SearchingCompany);
  }

  lemma AcceptTxVisibility(w: World, o: Id)
    requires Inv(w) && OffersRespectCompany(w) && OfferIs(w, o, OfferPending)
    ensures OffersRespectCompany(AcceptTx(w, o))
  {
    var c := w.offers[o].cargo;
    var w1 := w.(offers := OffersAfterAccept(w.offers, o), log := w.log + [OfferTaken(c, o)]);
    QuietKeeps(w, w1);
    if Live(w1, c) { WriteKeeps(w1, c, Assigned); }
  }

  lemma CreateOfferVisibility(w: World, o: Id, c: Id, carrier: Id)
    requires Inv(w) && OffersRespectCompany(w)
    ensures OffersRespectCompany(StepCreateOffer(w, o, c, carrier).world)
  {
    if StepCreateOffer(w, o, c, carrier).ok {
      var w' := StepCreateOffer(w, o, c, carrier).world;
      var made := OfferMade(c, carrier, CompanyOf(w, carrier), w.cargos[c].company);
      assert forall x :: x in w'.log <==> x in w.log || x == made;
      assert forall d :: Restricted(w', d) <==> Restricted(w, d);
    }
  }

  lemma StatusStepsVisibility(w: World, e: Event)
    requires Inv(w) && OffersRespectCompany(w) && IsStatusRequest(e)
    ensures OffersRespectCompany(Step(w, e).world)
  {
    if Step(w, e).ok {
      WriteKeeps(w, e.cargo, Step(w, e).world.cargos[e.cargo].status);
    }
  }

  lemma AcceptOfferVisibility(w: World, o: Id, t: Id)
    requires Inv(w) && OffersRespectCompany(w)
    ensures OffersRespectCompany(StepAcceptOffer(w, o, t).world)
  {
    if OfferIs(w, o, OfferPending) {
      AcceptTxVisibility(w, o);
      QuietKeeps(AcceptTx(w, o), StepAcceptOffer(w, o, t).world);
    }
  }

  lemma SyncVisibility(w: World, c: Id, s: TripStatus)
    requires StatusesReached(w) && OffersRespectCompany(w)
    ensures OffersRespectCompany(SyncCargo(w, c, s))
  {
    if SyncCargo(w, c, s) != w {
      WriteKeeps(w, c, if s == Loading then InProgress else Completed);
    }
  }

  lemma TripStatusVisibility(w: World, t: Id, driver: Id, s: TripStatus)
    requires StatusesReached(w) && OffersRespectCompany(w)
    ensures OffersRespectCompany(StepPatchTripStatus(w, t, driver, s).world)
  {
    if StepPatchTripStatus(w, t, driver, s).ok {
      var w1 := SetTrip(w, t, w.trips[t].(status := s));
      QuietKeeps(w, w1);
      SyncVisibility(w1, w.trips[t].cargo, s);
    }
  }

  lemma AcceptRecommendationVisibility(w: World, c: Id, driver: Id, o: Id, t: Id)
    requires Inv(w) && OffersRespectCompany(w)
    ensures OffersRespectCompany(StepAcceptRecommendation(w, c, driver, o, t).world)
  {
    if StepAcceptRecommendation(w, c, driver, o, t).ok {
      var w1 := w.(offers := w.offers[o := Offer(c, driver, OfferPending)]);
      InsertOfferKeeps(w, o, c, driver);
      QuietKeeps(w, w1);
      AcceptTxVisibility(w1, o);
      QuietKeeps(AcceptTx(w1, o), StepAcceptRecommendation(w, c, driver, o, t).world);
    }
  }

  lemma OtherStepsVisibility(w: World, e: Event)
    requires OffersRespectCompany(w)
    requires e.CreateCargo? || e.DeleteCargo? || e.RejectOffer? || e.Recommend? || e.DeclineRecommendation?
          || e.AssignDriver? || e.ConfirmDriver? || e.RejectDriver? || e.PutDriver? || e.RemoveDriver?
    ensures OffersRespectCompany(Step(w, e).world)
  {
    QuietKeeps(w, Step(w, e).world);
  }

  lemma StepVisibility(w: World, e: Event)
    requires Inv(w) && OffersRespectCompany(w)
    ensures OffersRespectCompany(Step(w, e).world)
  {
    if IsStatusRequest(e) {
      StatusStepsVisibility(w, e);
    } else {
      match e
      case CreateOffer(o, c, carrier) => CreateOfferVisibility(w, o, c, carrier);
      case AcceptOffer(o, t) => AcceptOfferVisibility(w, o, t);
      case AcceptRecommendation(c, driver, o, t) => AcceptRecommendationVisibility(w, c, driver, o, t);
      case PatchTripStatus(t, driver, s) => TripStatusVisibility(w, t, driver, s);
      case _ => OtherStepsVisibility(w, e);
    }
  }

  lemma {:induction false} RunVisibility(es: seq<Event>)
    ensures OffersRespectCompany(Run(es))
  {
    if es != [] {
      RunVisibility(es[..|es| - 1]);
      RunKeepsInv(es[..|es| - 1]);
      StepVisibility(Run(es[..|es| - 1]), es[|es| - 1]);
    }
  }

  lemma StepLogGrows(w: World, e: Event, x: Entry)
    requires x in w.log
    ensures x in Step(w, e).world.log
  {
    if e.AcceptOffer? {
      if Step(w, e).ok { assert x in AcceptTx(w, e.offer).log; }
    } else if e.AcceptRecommendation? {
      if Step(w, e).ok {
        var w1 := w.(offers := w.offers[e.newOffer := Offer(e.cargo, e.driver, OfferPending)]);
        assert x in AcceptTx(w1, e.newOffer).log;
      }
    } else if e.PatchTripStatus? && Step(w, e).ok {
      var w1 := SetTrip(w, e.trip, w.trips[e.trip].(status := e.tripStatus));
      assert x in SyncCargo(w1, w.trips[e.trip].cargo, e.tripStatus).log;
    }
  }

  lemma {:induction false} LogGrows(es: seq<Event>, k: nat, x: Entry)
    requires k <= |es| && x in Run(es[..k]).log
    ensures x in Run(es).log
  {
    if k == |es| {
      assert es[..k] == es;
    } else {
      var n := |es| - 1;
      assert es[..n][..k] == es[..k];
      LogGrows(es[..n], k, x);
      StepLogGrows(Run(es[..n]), es[n], x);
    }
  }

  /** If a cargo is SEARCHING_COMPANY at any moment of a run, then every offer the CreateOffer
      handler ever admitted on it came from a driver who at that moment belonged to its company. */
  lemma CompanyOffersOnly(es: seq<Event>, j: nat, k: nat, o: Id, c: Id, carrier: Id)
    requires j <= |es| && c in Run(es[..j]).cargos && Run(es[..j]).cargos[c].status == SearchingCompany
    requires k < |es| && es[k] == CreateOffer(o, c, carrier) && Step(Run(es[..k]), es[k]).ok
    ensures carrier in Run(es[..k]).drivers && c in Run(es[..k]).cargos
    ensures Run(es[..k]).drivers[carrier].Some? && Run(es[..k]).drivers[carrier] == Run(es[..k]).cargos[c].company
  {
    var w := Run(es[..k]);
    var made := OfferMade(c, carrier, CompanyOf(w, carrier), w.cargos[c].company);
    assert es[..k + 1][..k] == es[..k];
    assert made in Run(es[..k + 1]).log;
    LogGrows(es, k + 1, made);
    RunVisibility(es[..j]);
    assert Restricted(Run(es[..j]), c);
    LogGrows(es, j, StatusWritten(c, SearchingCompany));
    RunVisibility(es);
    assert Restricted(Run(es), c);
  }
}
