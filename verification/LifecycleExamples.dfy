/** Concrete runs: one cargo, one driver, one offer. They show that bounds are reached and guards needed. */
module LifecycleExamples {
  import opened Wrappers
  import opened Lifecycle
  import opened LifecycleBudget

  /** Cargo 0, offer 0 by driver 1, trip 0. */
  datatype Scene = Scene(cargo: CargoStatus, offer: Option<OfferStatus>, trip: Option<TripStatus>)

  ghost predicate Shows(w: World, scene: Scene) {
    && w.cargos == map[0 := Cargo(scene.cargo, false, None, None)]
    && w.offers == (if scene.offer.None? then map[] else map[0 := Offer(0, 1, scene.offer.value)])
    && w.trips == (if scene.trip.None? then map[] else map[0 := Trip(0, 0, Some(1), scene.trip.value)])
    && w.drivers == map[1 := None]
  }

  /** The run ends in the scene after so many changes of status. */
  ghost predicate Leads(es: seq<Event>, scene: Scene, changes: nat) {
    Shows(Run(es), scene) && StatusChanges(es, 0) == changes
  }

  lemma Extend(es: seq<Event>, e: Event)
    ensures Run(es + [e]) == Step(Run(es), e).world
    ensures
      var w, w' := Run(es), Step(Run(es), e).world;
      StatusChanges(es + [e], 0) == StatusChanges(es, 0)
        + if 0 in w.cargos && 0 in w'.cargos && w.cargos[0].status != w'.cargos[0].status then 1 else 0
  {
    assert (es + [e])[..|es|] == es;
  }

  lemma Next(es: seq<Event>, e: Event, from: Scene, to: Scene, n: nat)
    requires Leads(es, from, n) && Shows(Step(Run(es), e).world, to)
    ensures Leads(es + [e], to, if from.cargo != to.cargo then n + 1 else n)
  {
    Extend(es, e);
  }

  /* ---------- single steps ---------- */

  const OPEN := Scene(SearchingAll, Some(OfferPending), None)

  lemma OpeningWorld()
    ensures
      var w1 := Step(EMPTY, PutDriver(1, None)).world;
      var w2 := Step(w1, CreateCargo(0, None, None, 0)).world;
      var w3 := Step(w2, ModerationAccept(0, false)).world;
      && w1.cargos == map[]
      && Shows(w2, Scene(PendingModeration, None, None))
      && Shows(w3, Scene(SearchingAll, None, None))
      && Shows(Step(w3, CreateOffer(0, 0, 1)).world, OPEN)
  {
  }

  lemma Opened() returns (es: seq<Event>)
    ensures Leads(es, OPEN, 1)
    ensures forall k | 0 <= k < |es| :: !es[k].PatchCargoStatus?
  {
    OpeningWorld();
    Extend([], PutDriver(1, None));
    es := [] + [PutDriver(1, None)];
    Extend(es, CreateCargo(0, None, None, 0));
    es := es + [CreateCargo(0, None, None, 0)];
    Next(es, ModerationAccept(0, false), Scene(PendingModeration, None, None), Scene(SearchingAll, None, None), 0);
    es := es + [ModerationAccept(0, false)];
    Next(es, CreateOffer(0, 0, 1), Scene(SearchingAll, None, None), OPEN, 1);
    es := es + [CreateOffer(0, 0, 1)];
  }

  lemma PatchWorld(w: World, from: CargoStatus, to: CargoStatus)
    requires Shows(w, Scene(from, Some(OfferPending), None)) && to in CargoNext(from)
    ensures Shows(Step(w, PatchCargoStatus(0, to)).world, Scene(to, Some(OfferPending), None))
  {
  }

  lemma HandPatched(before: seq<Event>, from: CargoStatus, to: CargoStatus, n: nat) returns (es: seq<Event>)
    requires Leads(before, Scene(from, Some(OfferPending), None), n) && to in CargoNext(from) && from != to
    ensures Leads(es, Scene(to, Some(OfferPending), None), n + 1)
  {
    PatchWorld(Run(before), from, to);
    Next(before, PatchCargoStatus(0, to),
         Scene(from, Some(OfferPending), None), Scene(to, Some(OfferPending), None), n);
    es := before + [PatchCargoStatus(0, to)];
  }

  const TAKEN := Scene(Assigned, Some(OfferAccepted), Some(PendingDriver))

  lemma TakenWorld(w: World, from: CargoStatus)
    requires Shows(w, Scene(from, Some(OfferPending), None))
    ensures Shows(Step(w, AcceptOffer(0, 0)).world, TAKEN)
  {
    assert StartTrip(AcceptTx(w, 0), 0, 0, 0, 1).trips == map[0 := Trip(0, 0, Some(1), PendingDriver)];
    assert StepAcceptOffer(w, 0, 0).world.cargos == map[0 := Cargo(Assigned, false, None, None)];
  }

  /** A pending offer is accepted, whatever the status of the cargo. */
  lemma OfferTakenFrom(before: seq<Event>, from: CargoStatus, n: nat)
    requires Leads(before, Scene(from, Some(OfferPending), None), n) && from != Assigned
    ensures Leads(before + [AcceptOffer(0, 0)], TAKEN, n + 1)
  {
    TakenWorld(Run(before), from);
    Next(before, AcceptOffer(0, 0), Scene(from, Some(OfferPending), None), TAKEN, n);
  }

  function OnTheWay(c: CargoStatus, t: TripStatus): Scene {
    Scene(c, Some(OfferAccepted), Some(t))
  }

  lemma ConfirmedWorld(w: World)
    requires Shows(w, TAKEN)
    ensures Shows(Step(w, ConfirmDriver(0, 1)).world, OnTheWay(Assigned, TripAssigned))
  {
  }

  lemma Confirmed(before: seq<Event>, n: nat)
    requires Leads(before, TAKEN, n)
    ensures Leads(before + [ConfirmDriver(0, 1)], OnTheWay(Assigned, TripAssigned), n)
  {
    ConfirmedWorld(Run(before));
    Next(before, ConfirmDriver(0, 1), TAKEN, OnTheWay(Assigned, TripAssigned), n);
  }

  /** What loading and completing do to the cargo. */
  function Follows(c: CargoStatus, to: TripStatus): CargoStatus {
    if to == Loading then InProgress else if to == TripCompleted then Completed else c
  }

  predicate Moves(c: CargoStatus, from: TripStatus, to: TripStatus) {
    && to in TripNext(from) && to != TripAssigned && to != TripCancelled
    && (to == Loading ==> c == Assigned)
    && (to == TripCompleted ==> c == InProgress)
  }

  lemma DrivenWorld(w: World, c: CargoStatus, from: TripStatus, to: TripStatus)
    requires Shows(w, OnTheWay(c, from)) && Moves(c, from, to)
    ensures Shows(StepPatchTripStatus(w, 0, 1, to).world, OnTheWay(Follows(c, to), to))
  {
    var w1 := SetTrip(w, 0, w.trips[0].(status := to));
    assert w1.trips == map[0 := Trip(0, 0, Some(1), to)];
    assert StepPatchTripStatus(w, 0, 1, to).world == SyncCargo(w1, 0, to);
  }

  lemma Driven(before: seq<Event>, c: CargoStatus, from: TripStatus, to: TripStatus, n: nat)
    requires Leads(before, OnTheWay(c, from), n) && Moves(c, from, to)
    ensures Leads(before + [PatchTripStatus(0, 1, to)], OnTheWay(Follows(c, to), to),
                  if c != Follows(c, to) then n + 1 else n)
  {
    DrivenWorld(Run(before), c, from, to);
    Next(before, PatchTripStatus(0, 1, to), OnTheWay(c, from), OnTheWay(Follows(c, to), to), n);
  }

  /* ---------- runs ---------- */

  lemma CompletedByHand() returns (es: seq<Event>)
    ensures Leads(es, Scene(Completed, Some(OfferPending), None), 4)
  {
    es := Opened();
    es := HandPatched(es, SearchingAll, Assigned, 1);
    es := HandPatched(es, Assigned, InProgress, 2);
    es := HandPatched(es, InProgress, Completed, 3);
  }

  lemma Loaded(before: seq<Event>, n: nat) returns (es: seq<Event>)
    requires Leads(before, TAKEN, n)
    ensures Leads(es, OnTheWay(InProgress, Loading), n + 1)
    ensures es == before + [ConfirmDriver(0, 1)] + [PatchTripStatus(0, 1, Loading)]
  {
    Confirmed(before, n);
    Driven(before + [ConfirmDriver(0, 1)], Assigned, TripAssigned, Loading, n);
    es := before + [ConfirmDriver(0, 1)] + [PatchTripStatus(0, 1, Loading)];
  }

  lemma Delivering(before: seq<Event>, n: nat) returns (es: seq<Event>)
    requires Leads(before, OnTheWay(InProgress, Loading), n)
    ensures Leads(es, OnTheWay(Completed, TripCompleted), n + 1)
  {
    Driven(before, InProgress, Loading, EnRoute, n);
    es := before + [PatchTripStatus(0, 1, EnRoute)];
    Driven(es, InProgress, EnRoute, Unloading, n);
    es := es + [PatchTripStatus(0, 1, Unloading)];
    Driven(es, InProgress, Unloading, TripCompleted, n);
    es := es + [PatchTripStatus(0, 1, TripCompleted)];
  }

  /** Seven is tight: a cargo patched by hand to COMPLETED with an offer still pending, then accepted
      and carried to COMPLETED again. */
  lemma SevenIsReached() returns (es: seq<Event>)
    ensures StatusChanges(es, 0) == 7
  {
    es := CompletedByHand();
    OfferTakenFrom(es, Completed, 4);
    es := Loaded(es + [AcceptOffer(0, 0)], 5);
    es := Delivering(es, 6);
  }

  /** A run that leaves COMPLETED. */
  lemma CompletedIsLeft() returns (es: seq<Event>)
    ensures 0 in Run(es).cargos && Run(es).cargos[0].status == Completed
    ensures 0 in Run(es + [AcceptOffer(0, 0)]).cargos && Run(es + [AcceptOffer(0, 0)]).cargos[0].status == Assigned
  {
    es := CompletedByHand();
    OfferTakenFrom(es, Completed, 4);
  }

  /** A run that leaves CANCELLED. */
  lemma CancelledIsLeft() returns (es: seq<Event>)
    ensures 0 in Run(es).cargos && Run(es).cargos[0].status == Cancelled
    ensures 0 in Run(es + [AcceptOffer(0, 0)]).cargos && Run(es + [AcceptOffer(0, 0)]).cargos[0].status == Assigned
  {
    es := Opened();
    es := HandPatched(es, SearchingAll, Cancelled, 1);
    OfferTakenFrom(es, Cancelled, 2);
  }
}
