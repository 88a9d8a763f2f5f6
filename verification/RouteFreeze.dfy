/** How long route and payment of a cargo are protected from updates once it is assigned. */
module RouteFreeze {
  import opened Wrappers
  import opened Lifecycle
  import opened LifecycleSafety
  import opened LifecycleSync
  import opened LifecycleExamples
  import U = CargoUpdate

  /** An update that asks for new route points or a new payment. */
  predicate AsksForTerms(p: U.Params) {
    p.routePoints != [] || p.payment.Some?
  }

  /** An update of route or payment of an undeleted row is refused exactly when its status is ASSIGNED,
      IN_TRANSIT or DELIVERED; otherwise the asked terms are in the row. */
  lemma RefusedIff(t: map<Id, U.Row>, t': map<Id, U.Row>, id: Id, p: U.Params, now: nat, failure: Option<U.Failure>)
    requires U.UpdateEffect(t, t', id, p, now, failure)
    requires id in t && !t[id].deleted && AsksForTerms(p)
    ensures failure == Some(U.CannotEditAfterAssigned) <==> t[id].status in {Assigned, InTransit, Delivered}
    ensures failure.Some? ==> t' == t
    ensures failure.None? ==>
              && id in t'
              && (p.routePoints != [] ==> t'[id].points == p.routePoints)
              && (p.payment.Some? ==> t'[id].payment == p.payment)
  {
  }

  /** In every run, for the row of an undeleted cargo: route and payment are protected exactly while the
      cargo is ASSIGNED. */
  lemma ProtectedWhileAssigned(es: seq<Event>, c: Id, t: map<Id, U.Row>, t': map<Id, U.Row>, p: U.Params, now: nat,
                               failure: Option<U.Failure>)
    requires Live(Run(es), c) && c in t && !t[c].deleted && t[c].status == Run(es).cargos[c].status
    requires U.UpdateEffect(t, t', c, p, now, failure) && AsksForTerms(p)
    ensures failure == Some(U.CannotEditAfterAssigned) <==> Run(es).cargos[c].status == Assigned
    ensures failure.None? <==> Run(es).cargos[c].status != Assigned
  {
    StatusesNeverReached(es);
    RefusedIff(t, t', c, p, now, failure);
  }

  /** In a run without manual patches an accepted cargo is protected as long as its trip waits for the
      driver or for loading, and not from loading on. */
  lemma ProtectedUntilLoading(es: seq<Event>, trip: Id, t: map<Id, U.Row>, t': map<Id, U.Row>, p: U.Params, now: nat,
                              failure: Option<U.Failure>)
    requires forall k | 0 <= k < |es| :: !es[k].PatchCargoStatus?
    requires trip in Run(es).trips && Live(Run(es), Run(es).trips[trip].cargo)
    requires
      var c := Run(es).trips[trip].cargo;
      && c in t && !t[c].deleted && t[c].status == Run(es).cargos[c].status
      && U.UpdateEffect(t, t', c, p, now, failure) && AsksForTerms(p)
    ensures Run(es).trips[trip].status in {PendingDriver, TripAssigned} ==> failure == Some(U.CannotEditAfterAssigned)
    ensures Run(es).trips[trip].status in {Loading, EnRoute, Unloading, TripCompleted} ==> failure.None?
  {
    CargoFollowsTrip(es, trip);
    RefusedIff(t, t', Run(es).trips[trip].cargo, p, now, failure);
  }

  function NoParams(): U.Params {
    U.Params(None, None, None, None, None, None, None, None, None, None, None, None, None, None, None, None, None,
             [], None)
  }

  /** A run without manual patches in which an ASSIGNED cargo is IN_PROGRESS two requests later. */
  lemma AssignedThenLoading() returns (es: seq<Event>, later: seq<Event>)
    ensures forall k | 0 <= k < |es + later| :: !(es + later)[k].PatchCargoStatus?
    ensures 0 in Run(es).cargos && Run(es).cargos[0].status == Assigned
    ensures |later| == 2 && 0 in Run(es + later).cargos && Run(es + later).cargos[0].status == InProgress
  {
    var before := Opened();
    OfferTakenFrom(before, SearchingAll, 1);
    es := before + [AcceptOffer(0, 0)];
    later := [ConfirmDriver(0, 1), PatchTripStatus(0, 1, Loading)];
    var loaded := Loaded(es, 2);
    assert loaded == es + later;
  }

  lemma RouteReplaced(t: map<Id, U.Row>, t': map<Id, U.Row>, c: Id, p: U.Params, now: nat, failure: Option<U.Failure>)
    requires c in t && !t[c].deleted && t[c].status == InProgress && p.routePoints != []
    requires U.UpdateEffect(t, t', c, p, now, failure)
    ensures failure.None? && c in t' && t'[c].points == p.routePoints
  {
    RefusedIff(t, t', c, p, now, failure);
  }

  /** The failing input: a cargo was ASSIGNED, without any manual patch it is IN_PROGRESS two requests
      later, and then an update replaces the route of its row. */
  lemma RouteChangesAfterAssignment(t: map<Id, U.Row>, t': map<Id, U.Row>, p: U.Params, now: nat,
                                    failure: Option<U.Failure>)
    returns (es: seq<Event>, later: seq<Event>)
    requires p == NoParams().(routePoints := ["Tashkent", "Dubai"])
    requires 0 in t && !t[0].deleted && t[0].status == InProgress && t[0].points == ["Tashkent", "Almaty"]
    requires U.UpdateEffect(t, t', 0, p, now, failure)
    ensures forall k | 0 <= k < |es + later| :: !(es + later)[k].PatchCargoStatus?
    ensures 0 in Run(es).cargos && Run(es).cargos[0].status == Assigned
    ensures |later| == 2 && 0 in Run(es + later).cargos && Run(es + later).cargos[0].status == t[0].status
    ensures failure.None? && 0 in t' && t'[0].points == ["Tashkent", "Dubai"] != t[0].points
  {
    es, later := AssignedThenLoading();
    RouteReplaced(t, t', 0, p, now, failure);
    assert t[0].points[1][0] == 'A' && p.routePoints[1][0] == 'D';
  }
}
