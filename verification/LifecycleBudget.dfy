/** How often the status of a cargo can change. */
module LifecycleBudget {
  import opened Wrappers
  import opened Lifecycle
  import opened LifecycleInvariants

  function StatusWrites(log: seq<Entry>, c: Id): nat {
    if log == [] then 0
    else
      StatusWrites(log[..|log| - 1], c)
      + if log[|log| - 1].StatusWritten? && log[|log| - 1].cargo == c then 1 else 0
  }

  function Takings(log: seq<Entry>, c: Id): nat {
    if log == [] then 0
    else
      Takings(log[..|log| - 1], c)
      + if log[|log| - 1].OfferTaken? && log[|log| - 1].cargo == c then 1 else 0
  }

  lemma CountsOfAppend(log: seq<Entry>, e: Entry, c: Id)
    ensures StatusWrites(log + [e], c) == StatusWrites(log, c) + if e.StatusWritten? && e.cargo == c then 1 else 0
    ensures Takings(log + [e], c) == Takings(log, c) + if e.OfferTaken? && e.cargo == c then 1 else 0
  {
    assert (log + [e])[..|log|] == log;
  }

  /** How many status writes a cargo can still see. */
  ghost function Budget(w: World, c: Id): nat
    requires c in w.cargos
  {
    var s := w.cargos[c].status;
    if HasAccepted(w, c) then
      if s == Assigned then 2 else if s == InProgress then 1 else 0
    else
      match s
      case PendingModeration => 7
      case SearchingAll => 6
      case SearchingCompany => 6
      case Assigned => 5
      case InProgress => 4
      case _ => 3
  }

  ghost predicate WithinBudget(w: World, c: Id) {
    && (c in w.cargos ==> StatusWrites(w.log, c) + Budget(w, c) <= 7)
    && (c !in w.cargos ==> StatusWrites(w.log, c) == 0 && Takings(w.log, c) == 0)
    && Takings(w.log, c) <= 1
    && (Takings(w.log, c) == 1 ==> HasAccepted(w, c))
  }

  lemma SameRowsSameBudget(w: World, w': World, c: Id)
    requires WithinBudget(w, c)
    requires forall o :: Taken(w', o, c) <==> Taken(w, o, c)
    requires c in w'.cargos <==> c in w.cargos
    requires c in w.cargos ==> w'.cargos[c].status == w.cargos[c].status
    requires StatusWrites(w'.log, c) == StatusWrites(w.log, c) && Takings(w'.log, c) == Takings(w.log, c)
    ensures WithinBudget(w', c)
  {
    assert HasAccepted(w', c) <==> HasAccepted(w, c);
  }

  lemma WriteStatusBudget(w: World, d: Id, s: CargoStatus, c: Id)
    requires Inv(w) && WithinBudget(w, c) && Live(w, d) && s in CargoNext(w.cargos[d].status)
    ensures WithinBudget(WriteStatus(w, d, s), c)
  {
    var w' := WriteStatus(w, d, s);
    CountsOfAppend(w.log, StatusWritten(d, s), c);
    assert forall o :: Taken(w', o, c) <==> Taken(w, o, c);
    if c == d {
      assert HasAccepted(w', c) <==> HasAccepted(w, c);
      assert HasAccepted(w, c) ==> Closing(w.cargos[c].status);
    } else {
      SameRowsSameBudget(w, w', c);
    }
  }

  lemma AcceptTxLog(w: World, o: Id, c: Id)
    requires OfferIs(w, o, OfferPending)
    ensures
      var w', d := AcceptTx(w, o), w.offers[o].cargo;
      && StatusWrites(w'.log, c) == StatusWrites(w.log, c) + (if c == d && Live(w, d) then 1 else 0)
      && Takings(w'.log, c) == Takings(w.log, c) + if c == d then 1 else 0
  {
    var d := w.offers[o].cargo;
    CountsOfAppend(w.log, OfferTaken(d, o), c);
    CountsOfAppend(w.log + [OfferTaken(d, o)], StatusWritten(d, Assigned), c);
  }

  lemma AcceptedBudget(w: World, w': World, o: Id, c: Id)
    requires Inv(w) && WithinBudget(w, c) && OfferIs(w, o, OfferPending) && w.offers[o].cargo == c
    requires AcceptedShape(w, w', o, c) && !HasAccepted(w, c)
    requires StatusWrites(w'.log, c) == StatusWrites(w.log, c) + if Live(w, c) then 1 else 0
    requires Takings(w'.log, c) == Takings(w.log, c) + 1
    ensures WithinBudget(w', c)
  {
    assert Taken(w', o, c);
  }

  lemma AcceptTxBudget(w: World, o: Id, c: Id)
    requires Inv(w) && WithinBudget(w, c) && OfferIs(w, o, OfferPending)
    ensures WithinBudget(AcceptTx(w, o), c)
  {
    var w' := AcceptTx(w, o);
    var d := w.offers[o].cargo;
    AcceptTxShape(w, o);
    AcceptTxKeeps(w, o);
    AcceptTxLog(w, o, c);
    if c == d {
      AcceptedBudget(w, w', o, c);
    } else {
      SameRowsSameBudget(w, w', c);
    }
  }

  lemma StartTripBudget(w: World, t: Id, c: Id, o: Id, carrier: Id, d: Id)
    requires WithinBudget(w, d)
    ensures WithinBudget(StartTrip(w, t, c, o, carrier), d)
  {
    SameRowsSameBudget(w, StartTrip(w, t, c, o, carrier), d);
  }

  lemma AcceptOfferBudget(w: World, o: Id, t: Id, c: Id)
    requires Inv(w) && WithinBudget(w, c)
    ensures WithinBudget(StepAcceptOffer(w, o, t).world, c)
  {
    if OfferIs(w, o, OfferPending) {
      AcceptTxBudget(w, o, c);
      StartTripBudget(AcceptTx(w, o), t, w.offers[o].cargo, o, w.offers[o].carrier, c);
    }
  }

  lemma AcceptRecommendationBudget(w: World, d: Id, driver: Id, o: Id, t: Id, c: Id)
    requires Inv(w) && WithinBudget(w, c)
    ensures WithinBudget(StepAcceptRecommendation(w, d, driver, o, t).world, c)
  {
    if StepAcceptRecommendation(w, d, driver, o, t).ok {
      var w1 := w.(offers := w.offers[o := Offer(d, driver, OfferPending)]);
      InsertOfferKeeps(w, o, d, driver);
      SameRowsSameBudget(w, w1, c);
      AcceptTxBudget(w1, o, c);
      var w2 := AcceptTx(w1, o);
      SameRowsSameBudget(w2, SetRec(w2, d, driver, RecAccepted), c);
      StartTripBudget(SetRec(w2, d, driver, RecAccepted), t, d, o, driver, c);
    }
  }

  lemma TripStatusBudget(w: World, t: Id, driver: Id, s: TripStatus, c: Id)
    requires Inv(w) && WithinBudget(w, c)
    ensures WithinBudget(StepPatchTripStatus(w, t, driver, s).world, c)
  {
    if StepPatchTripStatus(w, t, driver, s).ok {
      var w1 := SetTrip(w, t, w.trips[t].(status := s));
      TripStepKeeps(w, w1, t);
      SameRowsSameBudget(w, w1, c);
      SyncBudget(w1, w.trips[t].cargo, s, c);
    }
  }

  lemma SyncBudget(w: World, d: Id, s: TripStatus, c: Id)
    requires Inv(w) && WithinBudget(w, c)
    ensures WithinBudget(SyncCargo(w, d, s), c)
  {
    if SyncCargo(w, d, s) != w {
      WriteStatusBudget(w, d, if s == Loading then InProgress else Completed, c);
    }
  }

  lemma ModerationBudget(w: World, e: Event, c: Id)
    requires Inv(w) && WithinBudget(w, c) && IsStatusRequest(e)
    ensures WithinBudget(Step(w, e).world, c)
  {
    if Step(w, e).ok {
      WriteStatusBudget(w, e.cargo, Step(w, e).world.cargos[e.cargo].status, c);
    }
  }

  lemma CreateCargoBudget(w: World, d: Id, creator: Option<Creator>, company: Option<Id>, limit: int, c: Id)
    requires Inv(w) && WithinBudget(w, c)
    ensures WithinBudget(StepCreateCargo(w, d, creator, company, limit).world, c)
  {
    var w' := StepCreateCargo(w, d, creator, company, limit).world;
    assert forall o :: Taken(w', o, c) <==> Taken(w, o, c);
    if c != d || w' == w {
      SameRowsSameBudget(w, w', c);
    } else {
      NewRowBudget(w, w', c);
    }
  }

  lemma NewRowBudget(w: World, w': World, c: Id)
    requires References(w) && WithinBudget(w, c) && c !in w.cargos && w'.offers == w.offers && w'.log == w.log
    requires c in w'.cargos && w'.cargos[c].status == PendingModeration
    ensures WithinBudget(w', c)
  {
    assert !HasAccepted(w', c);
  }

  /** One more entry that is neither a status nor an acceptance. */
  lemma QuietEntryBudget(w: World, w': World, x: Entry, c: Id)
    requires WithinBudget(w, c) && w'.log == w.log + [x] && !x.StatusWritten? && !x.OfferTaken?
    requires forall o :: Taken(w', o, c) <==> Taken(w, o, c)
    requires w'.cargos == w.cargos
    ensures WithinBudget(w', c)
  {
    CountsOfAppend(w.log, x, c);
    SameRowsSameBudget(w, w', c);
  }

  lemma CreateOfferBudget(w: World, o: Id, d: Id, carrier: Id, c: Id)
    requires Inv(w) && WithinBudget(w, c)
    ensures WithinBudget(StepCreateOffer(w, o, d, carrier).world, c)
  {
    if StepCreateOffer(w, o, d, carrier).ok {
      QuietEntryBudget(w, StepCreateOffer(w, o, d, carrier).world,
                       OfferMade(d, carrier, CompanyOf(w, carrier), w.cargos[d].company), c);
    }
  }

  lemma ConfirmDriverBudget(w: World, t: Id, driver: Id, c: Id)
    requires WithinBudget(w, c)
    ensures WithinBudget(StepConfirmDriver(w, t, driver).world, c)
  {
    if StepConfirmDriver(w, t, driver).ok {
      QuietEntryBudget(w, StepConfirmDriver(w, t, driver).world, DriverConfirmed(t, driver), c);
    }
  }

  /** Requests that log nothing. */
  predicate IsSilent(e: Event) {
    || e.DeleteCargo? || e.RejectOffer? || e.Recommend? || e.DeclineRecommendation? || e.AssignDriver?
    || e.RejectDriver? || e.PutDriver? || e.RemoveDriver?
  }

  lemma SilentStepsBudget(w: World, e: Event, c: Id)
    requires WithinBudget(w, c) && IsSilent(e)
    ensures WithinBudget(Step(w, e).world, c)
  {
    var w' := Step(w, e).world;
    assert w'.log == w.log;
    assert forall o :: Taken(w', o, c) <==> Taken(w, o, c);
    SameRowsSameBudget(w, w', c);
  }

  lemma StepWithinBudget(w: World, e: Event, c: Id)
    requires Inv(w) && WithinBudget(w, c)
    ensures WithinBudget(Step(w, e).world, c)
  {
    if IsSilent(e) {
      SilentStepsBudget(w, e, c);
    } else {
      match e
      case CreateCargo(d, creator, company, limit) => CreateCargoBudget(w, d, creator, company, limit, c);
      case CreateOffer(o, d, carrier) => CreateOfferBudget(w, o, d, carrier, c);
      case ConfirmDriver(t, driver) => ConfirmDriverBudget(w, t, driver, c);
      case AcceptOffer(o, t) => AcceptOfferBudget(w, o, t, c);
      case AcceptRecommendation(d, driver, o, t) => AcceptRecommendationBudget(w, d, driver, o, t, c);
      case PatchTripStatus(t, driver, s) => TripStatusBudget(w, t, driver, s, c);
      case _ => ModerationBudget(w, e, c);
    }
  }

  lemma {:induction false} RunWithinBudget(es: seq<Event>, c: Id)
    ensures WithinBudget(Run(es), c)
  {
    if es != [] {
      RunWithinBudget(es[..|es| - 1], c);
      RunKeepsInv(es[..|es| - 1]);
      StepWithinBudget(Run(es[..|es| - 1]), es[|es| - 1], c);
    }
  }

  /** A cargo sees at most seven status writes and at most one acceptance in its whole life. */
  lemma AtMostSevenStatusWrites(es: seq<Event>, c: Id)
    ensures StatusWrites(Run(es).log, c) <= 7
    ensures Takings(Run(es).log, c) <= 1
  {
    RunWithinBudget(es, c);
  }

  /* The same two bounds without the log: counted on the requests and the states between them. */

  function StatusChanges(es: seq<Event>, c: Id): nat {
    if es == [] then 0
    else
      var w, w' := Run(es[..|es| - 1]), Run(es);
      StatusChanges(es[..|es| - 1], c)
      + if c in w.cargos && c in w'.cargos && w.cargos[c].status != w'.cargos[c].status then 1 else 0
  }

  predicate Accepts(w: World, e: Event, c: Id) {
    && Step(w, e).ok
    && ((e.AcceptOffer? && w.offers[e.offer].cargo == c) || (e.AcceptRecommendation? && e.cargo == c))
  }

  function Acceptances(es: seq<Event>, c: Id): nat {
    if es == [] then 0
    else
      Acceptances(es[..|es| - 1], c)
      + if Accepts(Run(es[..|es| - 1]), es[|es| - 1], c) then 1 else 0
  }

  /** Besides the two accepting handlers, a request logs nothing, or it logs one entry and that
      entry names every status change. */
  ghost predicate OneEntry(w: World, w': World) {
    && (forall c | c in w.cargos :: c in w'.cargos)
    && (|| (w'.log == w.log && forall c | c in w.cargos :: w'.cargos[c].status == w.cargos[c].status)
        || (exists x :: && w'.log == w.log + [x]
                        && (forall c | c in w.cargos && w'.cargos[c].status != w.cargos[c].status ::
                              x == StatusWritten(c, w'.cargos[c].status))))
  }

  lemma TripStatusOneEntry(w: World, t: Id, driver: Id, s: TripStatus)
    ensures OneEntry(w, StepPatchTripStatus(w, t, driver, s).world)
  {
    if StepPatchTripStatus(w, t, driver, s).ok {
      var w1 := SetTrip(w, t, w.trips[t].(status := s));
      var c := w.trips[t].cargo;
      var w' := SyncCargo(w1, c, s);
      if w'.log != w.log {
        assert w'.log == w.log + [StatusWritten(c, w'.cargos[c].status)];
      }
    }
  }

  lemma StepOneEntry(w: World, e: Event)
    requires !e.AcceptOffer? && !e.AcceptRecommendation?
    ensures OneEntry(w, Step(w, e).world)
  {
    var w' := Step(w, e).world;
    if e.PatchTripStatus? {
      TripStatusOneEntry(w, e.trip, e.driver, e.tripStatus);
    } else if w'.log != w.log {
      var x := w'.log[|w.log|];
      assert w'.log == w.log + [x];
    }
  }

  lemma AcceptOfferRows(w: World, o: Id, t: Id)
    requires OfferIs(w, o, OfferPending)
    ensures
      var w', d := StepAcceptOffer(w, o, t).world, w.offers[o].cargo;
      && w'.log == AcceptTx(w, o).log
      && (forall c | c in w.cargos && c in w'.cargos && w.cargos[c].status != w'.cargos[c].status ::
            c == d && Live(w, d))
  {
  }

  lemma AcceptOfferCounts(w: World, o: Id, t: Id, c: Id)
    ensures
      var w' := StepAcceptOffer(w, o, t).world;
      && StatusWrites(w'.log, c) >= StatusWrites(w.log, c)
         + (if c in w.cargos && c in w'.cargos && w.cargos[c].status != w'.cargos[c].status then 1 else 0)
      && Takings(w'.log, c) >=
         Takings(w.log, c) + if OfferIs(w, o, OfferPending) && w.offers[o].cargo == c then 1 else 0
  {
    if OfferIs(w, o, OfferPending) {
      AcceptTxLog(w, o, c);
      AcceptOfferRows(w, o, t);
    }
  }

  lemma AcceptRecommendationRows(w: World, d: Id, driver: Id, o: Id, t: Id)
    requires StepAcceptRecommendation(w, d, driver, o, t).ok
    ensures
      var w' := StepAcceptRecommendation(w, d, driver, o, t).world;
      && w'.log == AcceptTx(w.(offers := w.offers[o := Offer(d, driver, OfferPending)]), o).log
      && (forall c | c in w.cargos && c in w'.cargos && w.cargos[c].status != w'.cargos[c].status :: c == d)
  {
  }

  lemma AcceptRecommendationCounts(w: World, d: Id, driver: Id, o: Id, t: Id, c: Id)
    ensures
      var out := StepAcceptRecommendation(w, d, driver, o, t);
      var w' := out.world;
      && StatusWrites(w'.log, c) >= StatusWrites(w.log, c)
         + (if c in w.cargos && c in w'.cargos && w.cargos[c].status != w'.cargos[c].status then 1 else 0)
      && Takings(w'.log, c) >= Takings(w.log, c) + if out.ok && d == c then 1 else 0
  {
    if StepAcceptRecommendation(w, d, driver, o, t).ok {
      AcceptTxLog(w.(offers := w.offers[o := Offer(d, driver, OfferPending)]), o, c);
      AcceptRecommendationRows(w, d, driver, o, t);
    }
  }

  lemma WritesCountChanges(w: World, e: Event, c: Id)
    ensures
      var w' := Step(w, e).world;
      && StatusWrites(w'.log, c) >= StatusWrites(w.log, c)
         + (if c in w.cargos && c in w'.cargos && w.cargos[c].status != w'.cargos[c].status then 1 else 0)
      && Takings(w'.log, c) >= Takings(w.log, c) + if Accepts(w, e, c) then 1 else 0
  {
    if e.AcceptOffer? {
      AcceptOfferCounts(w, e.offer, e.newTrip, c);
    } else if e.AcceptRecommendation? {
      AcceptRecommendationCounts(w, e.cargo, e.driver, e.newOffer, e.newTrip, c);
    } else {
      StepOneEntry(w, e);
      OneEntryCounts(w, Step(w, e).world, c);
    }
  }

  lemma OneEntryCounts(w: World, w': World, c: Id)
    requires OneEntry(w, w')
    ensures StatusWrites(w'.log, c) >= StatusWrites(w.log, c)
              + (if c in w.cargos && w.cargos[c].status != w'.cargos[c].status then 1 else 0)
    ensures Takings(w'.log, c) >= Takings(w.log, c)
  {
    if w'.log != w.log {
      var x :| w'.log == w.log + [x]
            && (forall d | d in w.cargos && w'.cargos[d].status != w.cargos[d].status ::
                  x == StatusWritten(d, w'.cargos[d].status));
      CountsOfAppend(w.log, x, c);
    }
  }

  /** In every run the status of a cargo changes at most seven times and at most one acceptance on
      it succeeds, although accepting can take a cargo out of COMPLETED or CANCELLED. */
  lemma {:induction false} AtMostSevenChanges(es: seq<Event>, c: Id)
    ensures StatusChanges(es, c) <= StatusWrites(Run(es).log, c) <= 7
    ensures Acceptances(es, c) <= Takings(Run(es).log, c) <= 1
  {
    AtMostSevenStatusWrites(es, c);
    if es != [] {
      AtMostSevenChanges(es[..|es| - 1], c);
      WritesCountChanges(Run(es[..|es| - 1]), es[|es| - 1], c);
    }
  }
}
