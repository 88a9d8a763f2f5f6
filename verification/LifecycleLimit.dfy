/** The number of cargos a dispatcher may have at once. */
module LifecycleLimit {
  import opened Wrappers
  import opened Lifecycle

  /** The configured limit does not change during a run. */
  ghost predicate SameLimit(es: seq<Event>, limit: int) {
    forall k | 0 <= k < |es| && es[k].CreateCargo? :: es[k].limit == limit
  }

  /** Cargo rows stay, with their creator, and a deleted one stays deleted. */
  ghost predicate CreatorsKept(w: World, w': World) {
    forall c | c in w'.cargos ::
      c in w.cargos && w'.cargos[c].creator == w.cargos[c].creator && (w.cargos[c].deleted ==> w'.cargos[c].deleted)
  }

  lemma StepKeepsCreators(w: World, e: Event)
    requires !e.CreateCargo?
    ensures CreatorsKept(w, Step(w, e).world)
  {
    var w' := Step(w, e).world;
    if e.AcceptOffer? {
      AcceptKeepsCreators(w, e.offer);
    } else if e.AcceptRecommendation? {
      AcceptKeepsCreators(w.(offers := w.offers[e.newOffer := Offer(e.cargo, e.driver, OfferPending)]), e.newOffer);
    } else if e.PatchTripStatus? && e.trip in w.trips {
      var w1 := SetTrip(w, e.trip, w.trips[e.trip].(status := e.tripStatus));
      SyncKeepsCreators(w1, w.trips[e.trip].cargo, e.tripStatus);
    }
  }

  lemma AcceptKeepsCreators(w: World, o: Id)
    ensures OfferIs(w, o, OfferPending) ==> CreatorsKept(w, AcceptTx(w, o))
  {
  }

  lemma SyncKeepsCreators(w: World, c: Id, s: TripStatus)
    ensures CreatorsKept(w, SyncCargo(w, c, s))
  {
  }

  lemma {:induction false} SubsetIsSmaller(a: set<Id>, b: set<Id>)
    requires a <= b
    ensures |a| <= |b|
  {
    if x :| x in a {
      SubsetIsSmaller(a - {x}, b - {x});
    }
  }

  lemma StepWithinLimit(w: World, e: Event, dispatcher: Id, limit: int)
    requires limit > 0 && (e.CreateCargo? ==> e.limit == limit)
    requires |CreatedBy(w.cargos, dispatcher)| <= limit
    ensures |CreatedBy(Step(w, e).world.cargos, dispatcher)| <= limit
  {
    var before, after := CreatedBy(w.cargos, dispatcher), CreatedBy(Step(w, e).world.cargos, dispatcher);
    if !e.CreateCargo? {
      StepKeepsCreators(w, e);
      SubsetIsSmaller(after, before);
    } else if e.creator == Some(Dispatcher(dispatcher)) && Step(w, e).ok {
      assert after == before + {e.cargo};
    } else {
      assert after == before;
    }
  }

  /** In every run a dispatcher has at most as many undeleted cargos as the configured limit. */
  lemma {:induction false} DispatcherWithinLimit(es: seq<Event>, dispatcher: Id, limit: int)
    requires limit > 0 && SameLimit(es, limit)
    ensures |CreatedBy(Run(es).cargos, dispatcher)| <= limit
  {
    if es == [] {
      assert CreatedBy(EMPTY.cargos, dispatcher) == {};
    } else {
      DispatcherWithinLimit(es[..|es| - 1], dispatcher, limit);
      StepWithinLimit(Run(es[..|es| - 1]), es[|es| - 1], dispatcher, limit);
    }
  }
}
