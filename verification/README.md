# Freight marketplace: a verified model

A Dafny model of the Sarbon freight service and proofs of what its protocols promise. The service keeps
cargo, offers, trips and driver recommendations in PostgreSQL and its one-time passwords, refresh tokens
and access sessions in Redis. Here the tables and keys are maps, and every repository method or handler
that writes them is a step from state to state.

Each imperative part exists twice. A specification function says what one step does to the whole state;
a class with the same fields does it statement by statement, and every method is proved to have exactly
the effect of its function. The theorems are about runs: arbitrary sequences of steps from the empty
state.

| file | subject |
|---|---|
| `Lifecycle*.dfy`, `FreightService.dfy` | cargo, offers, trips and recommendations: invariant, safety, status budget, final statuses, agreement of cargo and trip, company visibility, the dispatcher's limit; what each request writes |
| `RouteFreeze.dfy` | how long route and payment of an assigned cargo are protected |
| `FixedWindow.dfy`, `Otp*.dfy` | the one-time-password store: send limits, cooldown, attempts, single use, lockout; every answer told from the history |
| `Session*.dfy`, `RefreshStore.dfy` | refresh rotation, sessions, revocation, how long a token pair lives |
| `CargoList.dfy`, `CargoUpdate.dfy` | the assembled WHERE and SET texts and what they mean; pages |
| `LikeSearch.dfy` | `escapeLike` against LIKE with an escape character (section 8.5 of ISO/IEC 9075-2; section 9.7.1 of the PostgreSQL manual) |
| `CityCodes.dfy`, `Decimal.dfy` | generated city codes and when they are unique |
| `ReferenceSearch.dfy`, `StableSort.dfy` | directory search: filter, ranking, order |
| `Chat.dfy`, `ChatRepo.dfy`, `Uuids.dfy` | one conversation per pair of users (section 4 of RFC 9562), cursor paging |
| `Strings.dfy`, `Filtering.dfy`, `Wrappers.dfy` | Go's string operations; what filtering a list means; optional values |

## Assumptions

- Every handler is one atomic step. Several statements of a handler that run outside a transaction are
  taken together, and concurrent requests are ordered.
- Errors of PostgreSQL and Redis that the code ignores do not occur; ids from `uuid_generate_v4()` and
  `uuid.NewString()` may be proposed arbitrarily, and a colliding primary key is an error.
- JTIs are never issued twice. Refresh and access TTLs are positive. The hash of a code is kept as the
  pair (phone, code).
- GoAdmin, which can write any status, is not an actor. Optional repositories (`drivers`, `tripsRepo`,
  `cargoRepo`) are configured.
- Text is ASCII, dates are `YYYY-MM-DD`, `created_at` of chat messages is distinct and rises with
  insertion.
- Company ids are compared as ids; the code compares their text.

## Where the code differs from what it says

- COMPLETED and CANCELLED have no outgoing transition in `SetStatus`, yet accepting an offer that is
  still pending moves a cargo out of them, because `AcceptOffer` does not look at the cargo's status.
  `LifecycleTerminal.TerminalStatusLeft` says exactly when, `LifecycleExamples.CompletedIsLeft` and
  `LifecycleExamples.CancelledIsLeft` are runs that do it. REJECTED is final
  (`LifecycleTerminal.RejectedIsFinal`). The status still changes at most seven times.
- CREATED, IN_TRANSIT and DELIVERED appear in tables, filters and guards but no run reaches them.
- `SearchOwners` documents "starts with" before "contains". `ORDER BY … DESC` puts NULL first, so a row
  with a NULL name overtakes a row that starts with the query. `LikeSearch.DocumentedOrderIff` gives the
  exact condition, `LikeSearch.NullNameOvertakes` two rows.
- `RevokeAll` returns early when it finds no refresh key, so a user who logged out with the refresh token
  keeps a valid access session that a second logout does not end (`SessionTheorems.RevokeAllCanMiss`).
  With an access TTL above the refresh TTL it can also miss sessions
  (`SessionTheorems.RevocationCompleteIff`).
- A code should stop taking guesses after `maxAttempts` wrong ones. An answer of
  `ErrOTPVerifyRateLimited` does not advance the attempt counter, and the verify limiter is consulted
  for wrong codes only. So once the limiter is full, wrong codes can be tried without end and the right
  one is still accepted. `OtpLockout.LockedOutIff` gives the exact condition on the two counters;
  `OtpLockout.DefaultsGuessWithoutBound` is a run that does it under the default settings; without the
  limiter the lockout holds in every run (`OtpLockout.WrongGuessesAreBounded`).
- A country query of nothing but punctuation passes every country through the filter but ranks none of
  them (`ReferenceSearch.CountryFilterIsRankIff`, `ReferenceSearch.DashPassesUnranked`).
- City codes stop being unique at the 100001st city of a country with the same three letters
  (`CityCodes.UniqueIff`).
- "Cannot edit route or payment after assigned" holds exactly while a cargo is ASSIGNED: `Update` checks
  for ASSIGNED, IN_TRANSIT and DELIVERED, of which only the first is ever reached, so the route can be
  replaced again in IN_PROGRESS, COMPLETED and CANCELLED (`RouteFreeze.ProtectedWhileAssigned`,
  `RouteFreeze.RouteChangesAfterAssignment`).

## Model

| member | source | states |
|---|---|---|
| LifecycleInvariants.StepKeepsInv | internal/cargo/repo.go:519-735 | each of the 17 requests keeps the invariant over all five tables: references, one accepted offer, acceptance closes the cargo, trips and accepted recommendations follow the accepted offer, drivers are confirmed |
| LifecycleInvariants.RunKeepsInv | internal/server/handlers/cargo.go:289-370 | the invariant holds after every sequence of requests |
| LifecycleInvariants.AcceptTxKeeps | internal/cargo/repo.go:612-635 | accepting a pending offer keeps the invariant, and before it the cargo had neither an accepted offer nor a trip |
| LifecycleInvariants.AcceptRecommendationKeeps | internal/server/handlers/cargo_recommendations.go:101-148 | the offer, accept, recommendation and trip writes of an accepted recommendation together keep the invariant |
| LifecycleEffects.CargoTransitions | internal/cargo/repo.go:520-532 | the fourteen pairs of cargo statuses that a manual change may take, and no other |
| LifecycleEffects.TripTransitions | internal/trips/repo.go:15-23 | the eight pairs of trip statuses, and no other |
| LifecycleEffects.RefusalWritesNothing | internal/server/handlers/cargo.go:269-370 | a refused request leaves every table as it was |
| LifecycleEffects.CreateCargoEffect | internal/server/handlers/cargo.go:100-142 | succeeds if and only if the id is new and the dispatcher, if one, is below the limit; one row at PENDING_MODERATION with its creator |
| LifecycleEffects.PatchCargoStatusEffect | internal/cargo/repo.go:519-548 | succeeds if and only if the cargo is undeleted and the pair is listed; only the status of that row changes |
| LifecycleEffects.ModerationAcceptEffect | internal/server/handlers/admin_cargo_moderation.go:61-97 | an undeleted pending cargo becomes SEARCHING_COMPANY if and only if that was asked and no dispatcher created it, otherwise SEARCHING_ALL |
| LifecycleEffects.ModerationRejectEffect | internal/cargo/repo.go:675-689 | an undeleted pending cargo becomes REJECTED, given a reason that is not blank |
| LifecycleEffects.DeleteCargoEffect | internal/cargo/repo.go:513-516 | afterwards the cargo is not undeleted; its other columns and all other rows stay |
| LifecycleEffects.CreateOfferEffect | internal/server/handlers/cargo.go:295-326 | succeeds if and only if the cargo is open to all, or to the company of the driver; one PENDING offer is added |
| LifecycleEffects.AcceptOfferSucceedsIff | internal/cargo/repo.go:618-624 | acceptance needs a pending offer and nothing else |
| LifecycleEffects.AcceptOfferEffect | internal/server/handlers/cargo.go:350-370 | the offer is ACCEPTED, its pending rivals REJECTED, an undeleted cargo ASSIGNED, the trip opened for the carrier, and no other row changes |
| LifecycleEffects.RejectOfferEffect | internal/server/handlers/cargo.go:378-405 | succeeds if and only if the pending offer is on an undeleted cargo of that dispatcher; only this offer changes, to REJECTED |
| LifecycleEffects.RecommendEffect | internal/server/handlers/cargo_recommendations.go:46-62 | succeeds if and only if the cargo is undeleted, searching and of that dispatcher and the driver exists; the row becomes PENDING |
| LifecycleEffects.AcceptRecommendationSucceedsIff | internal/server/handlers/cargo_recommendations.go:108-132 | acceptance succeeds if and only if the row is PENDING, the cargo undeleted and searching, and the offer id new |
| LifecycleEffects.AcceptRecommendationEffect | internal/server/handlers/cargo_recommendations.go:127-147 | the row is ACCEPTED, the new offer of that driver on that cargo ACCEPTED, pending rivals REJECTED, the cargo ASSIGNED and the trip opened |
| LifecycleEffects.RecAcceptedIff | internal/cargorecommendations/repo.go:26-109 | in every run a recommendation is ACCEPTED if and only if the last successful request on it is the driver's acceptance |
| LifecycleEffects.DeclineRecommendationEffect | internal/cargorecommendations/repo.go:101-109 | only a PENDING row changes, to DECLINED |
| LifecycleEffects.AssignDriverEffect | internal/trips/repo.go:88-99 | a trip that waits is given to any existing driver, also again |
| LifecycleEffects.ConfirmDriverEffect | internal/trips/repo.go:103-114 | only the driver the waiting trip has moves it to ASSIGNED |
| LifecycleEffects.RejectDriverEffect | internal/trips/repo.go:117-128 | only that driver clears it, and the trip waits again |
| LifecycleEffects.PatchTripStatusEffect | internal/server/handlers/trips.go:156-189 | succeeds if and only if it is the driver's trip and the pair is listed; LOADING and COMPLETED move the cargo from exactly the named statuses |
| LifecycleEffects.PutDriverEffect | internal/server/handlers/cargo.go:319-323 | the company of a driver is set, and nothing else |
| LifecycleEffects.RemoveDriverEffect | migrations/000030_freelance_dispatcher_flow.up.sql:88-92 | a driver of some trip cannot be removed; otherwise the recommendations go too |
| LifecycleSafety.OneOfferOneTrip | internal/trips/repo.go:72-85 | in every run a cargo has at most one accepted offer and at most one trip; the trip's offer is the accepted one; an accepted offer leaves none pending and the cargo deleted or ASSIGNED, IN_PROGRESS, COMPLETED or CANCELLED |
| LifecycleSafety.OneAcceptedRecommendation | internal/cargorecommendations/repo.go:26-109 | an accepted recommendation stands for an accepted offer of the same cargo and driver, so a cargo has at most one, although recommending again resets rows |
| LifecycleSafety.StatusesNeverReached | internal/cargo/model.go:11-23 | no run reaches CREATED, IN_TRANSIT or DELIVERED, and only moderated cargo is ever offered on |
| LifecycleSafety.DriverWasConfirmed | internal/trips/repo.go:103-114 | a trip beyond PENDING_DRIVER has a driver, and unless cancelled that very driver confirmed it by an earlier successful request |
| LifecycleSafety.DriverNeverChanges | internal/trips/repo.go:87-144 | once a trip left PENDING_DRIVER its driver is the same in every continuation of the run |
| LifecycleBudget.AtMostSevenStatusWrites | internal/cargo/repo.go:519-548 | at most seven successful status writes and at most one accepted offer per cargo, in every run |
| LifecycleBudget.AtMostSevenChanges | internal/cargo/repo.go:612-735 | the same two bounds counted on requests and the states between them, without the history variable |
| LifecycleExamples.SevenIsReached | internal/server/handlers/cargo.go:269-287 | the bound of seven is tight: a run that reaches it |
| LifecycleTerminal.TerminalStatusLeft | internal/cargo/repo.go:612-635 | in every run a request takes an undeleted cargo out of a status without successors if and only if it accepts an offer still pending on it, and then from COMPLETED or CANCELLED to ASSIGNED |
| LifecycleTerminal.TerminalStep | internal/cargo/repo.go:519-548 | the same equivalence for one step from any state whatever |
| LifecycleTerminal.RejectedIsFinal | internal/cargo/repo.go:675-689 | a cargo that is REJECTED at some moment of a run is REJECTED in every continuation |
| LifecycleExamples.CompletedIsLeft | internal/server/handlers/cargo.go:350-370 | a run that takes a cargo from COMPLETED to ASSIGNED |
| LifecycleExamples.CancelledIsLeft | internal/server/handlers/cargo.go:350-370 | a run that takes a cargo from CANCELLED to ASSIGNED |
| LifecycleSync.CargoFollowsTrip | internal/server/handlers/trips.go:156-189 | in a run without manual status patches the status of an undeleted cargo is determined by the status of its trip |
| LifecycleSync.RunSynced | internal/cargo/repo.go:716-735 | in such a run every undeleted cargo agrees with its trip, and one without an accepted offer is still before assignment |
| LifecycleTrips.AcceptedOfferHasOneTrip | internal/server/handlers/cargo.go:361-367 | in every run whose trip ids are new, an accepted offer has exactly one trip, the only one of its cargo |
| LifecycleTrips.TripsDetermineStatus | internal/server/handlers/trips.go:181-187 | in such a run without manual patches every undeleted cargo has the status its trip says, or has no trip and a status before assignment |
| LifecycleLimit.DispatcherWithinLimit | internal/server/handlers/cargo.go:112-127 | in every run a dispatcher has at most as many undeleted cargos as the configured limit |
| RouteFreeze.RefusedIff | internal/cargo/repo.go:376-386 | an update of route or payment of an undeleted row is refused if and only if its status is ASSIGNED, IN_TRANSIT or DELIVERED; otherwise the row has the asked terms |
| RouteFreeze.ProtectedWhileAssigned | internal/cargo/repo.go:501-501 | in every run route and payment of an undeleted cargo are protected if and only if it is ASSIGNED |
| RouteFreeze.ProtectedUntilLoading | internal/server/handlers/trips.go:181-187 | in a run without manual patches they are protected while the trip waits for driver or loading, and not from loading on |
| RouteFreeze.RouteChangesAfterAssignment | internal/cargo/repo.go:457-468 | a run and an update: an ASSIGNED cargo is IN_PROGRESS two requests later and its route is replaced |
| LifecycleVisibility.CompanyOffersOnly | internal/server/handlers/cargo.go:314-326 | if a cargo is SEARCHING_COMPANY at any moment of a run, every offer admitted on it came from a driver whose company was the cargo's at that moment |
| LifecycleVisibility.RunVisibility | internal/cargo/repo.go:657-672 | a cargo restricted to its company is never opened to all again, in every run |
| FreightService.Service.SetStatus | internal/cargo/repo.go:519-548 | the guarded loop over allowed transitions has exactly the effect and answer of the model step |
| FreightService.Service.ModerationAccept | internal/server/handlers/admin_cargo_moderation.go:61-97 | the visibility choice and the guarded update have the effect of the model step |
| FreightService.Service.ModerationReject | internal/cargo/repo.go:675-689 | a blank reason or a cargo not pending changes nothing; otherwise REJECTED |
| FreightService.Service.CreateCargo | internal/server/handlers/cargo.go:90-142 | a new cargo starts at PENDING_MODERATION with its creator, a company when only a company is given; a dispatcher at the limit is refused |
| FreightService.Service.DeleteCargo | internal/cargo/repo.go:513-516 | soft deletion of one row |
| FreightService.Service.UpdateStatus | internal/cargo/repo.go:716-735 | a status update guarded by the current status, and its row count |
| FreightService.Service.AcceptOfferTx | internal/cargo/repo.go:612-635 | the three updates in order leave the tables of the model transaction, or nothing changed |
| FreightService.Service.CreateOffer | internal/server/handlers/cargo.go:289-333 | the searching and company gate, then the insert |
| FreightService.Service.AcceptOffer | internal/server/handlers/cargo.go:350-370 | accept, then create the trip, then assign the carrier |
| FreightService.Service.RejectOffer | internal/server/handlers/cargo.go:378-405 | only the dispatcher who created the undeleted cargo rejects, and only a pending offer |
| FreightService.Service.Recommend | internal/server/handlers/cargo_recommendations.go:32-65 | the gate of the dispatcher and the upsert back to PENDING |
| FreightService.Service.SetRecStatus | internal/cargorecommendations/repo.go:90-109 | guarded accept and decline of a pending recommendation |
| FreightService.Service.AcceptRecommendation | internal/server/handlers/cargo_recommendations.go:101-148 | the whole sequence of writes has the effect of one model step |
| FreightService.Service.InsertTrip | internal/trips/repo.go:34-40 | a trip starts at PENDING_DRIVER without a driver |
| FreightService.Service.AssignDriver | internal/trips/repo.go:88-99 | the driver is set only while the trip is PENDING_DRIVER and the driver exists |
| FreightService.Service.ConfirmDriver | internal/trips/repo.go:103-114 | only the assigned driver confirms |
| FreightService.Service.RejectDriver | internal/trips/repo.go:117-128 | only the assigned driver rejects, which clears the assignment |
| FreightService.Service.SetTripStatus | internal/trips/repo.go:131-144 | the loop over allowed transitions succeeds if and only if the transition is allowed, and then changes only the status |
| FreightService.Service.PatchTripStatus | internal/server/handlers/trips.go:156-189 | the driver's own trip moves and the cargo row follows |
| FreightService.Service.Handle | internal/server/handlers/cargo.go:269-370 | any request moves the tables as the model says and keeps the invariant |
| FixedWindow.PassKeepsLimits | internal/store/otp_store.go:174-186 | a pass keeps: at most `limit` passes in the life of a counter, at most twice that in any closed interval of one window |
| OtpSending.AtMostTwiceTheLimit | internal/store/otp_store.go:92-126 | in every run, for a phone and for an address, at most 2*limit saves succeed in any interval of one window and at most limit per counter |
| OtpSending.TwiceTheLimitIsReached | internal/store/otp_store.go:174-186 | without a cooldown that bound is reached for every limit |
| OtpSending.SavesAreSpaced | internal/store/otp_store.go:95-99 | with a cooldown, two successful saves for one phone are at least a cooldown apart |
| OtpChecking.SuccessesMatchSaves | internal/store/otp_store.go:128-172 | every success answers the code of an earlier save of the phone younger than the TTL, and no two successes share a save |
| OtpChecking.AttemptsAreBounded | internal/store/otp_store.go:138-165 | per save at most maxAttempts - 1 answers are ErrOTPInvalid, the counter never passes the maximum, and after ErrOTPMaxAttempts nothing succeeds before a new save; guesses answered otherwise are the subject of OtpLockout |
| OtpChecking.RunTracked | internal/store/otp_store.go:113-125 | in every run the stored record is the open save of the log |
| OtpLockout.LockedOutIff | internal/store/otp_store.go:143-166 | after as many wrong guesses as a code has attempts left, no code is accepted, if and only if the verify limiter is off or its live counter plus those attempts is at most the verify limit |
| OtpLockout.UnboundedGuessing | internal/store/otp_store.go:147-159 | otherwise the right code is accepted after any number of wrong guesses |
| OtpLockout.GuessEffect | internal/store/otp_store.go:145-165 | the attempt and verify counters after n wrong guesses, whatever they are |
| OtpLockout.DefaultsGuessWithoutBound | internal/config/config.go:69-76 | under the default settings a run from the empty store makes any number n of wrong guesses at one code and then succeeds |
| OtpLockout.WrongGuessesAreBounded | internal/store/otp_store.go:128-172 | in every run all wrong guesses since a save are at most maxAttempts plus those the verify limiter turned away; without the limiter at most maxAttempts, and every success follows fewer |
| OtpLockout.WrongGuessesAreCounted | internal/store/otp_store.go:138-145 | in every run a guess is counted if and only if a code that still takes guesses is stored and the guess differs from it |
| OtpVerifying.VerifiedIff | internal/store/otp_store.go:128-172 | in every run a check succeeds, with the save's request id, if and only if the last save of the phone is not redeemed, has that code, is younger than the TTL and fewer than maxAttempts wrong guesses were counted on it |
| OtpVerifying.RefusedAnswers | internal/store/otp_store.go:134-166 | in every run when the answer is ErrOTPExpired, ErrOTPVerifyRateLimited or ErrOTPInvalid, each if and only if |
| OtpVerifying.FreshCodeIsAccepted | internal/store/otp_store.go:113-125 | a code that was just stored is accepted at once |
| OtpVerifying.SaveAnswers | internal/store/otp_store.go:92-126 | in every run a save is refused for the cooldown if and only if the phone's last code is younger than it, for a rate if and only if otherwise a counter is full, and stored with no attempts for the TTL in all other cases |
| OtpVerifying.SaveCountsRequest | internal/store/otp_store.go:174-186 | every save past the cooldown counts on the phone, also a refused one; a new counter lives one window |
| OtpStore.Store.constructor | internal/store/otp_store.go:38-55 | a send window that is not positive becomes one hour, and nothing else changes |
| OtpStore.Store.SaveOTP | internal/store/otp_store.go:92-126 | the Redis commands in order have the effect and answer of the model step |
| OtpStore.Store.IncrWithLimit | internal/store/otp_store.go:174-186 | INCR with EXPIRE on a new counter, and the comparison with the limit |
| OtpStore.Store.CheckCode | internal/store/otp_store.go:128-172 | the branches of Verify have the effect and answer of the model step |
| SessionTheorems.OneLivePerLineage | internal/server/handlers/auth.go:191-234 | in every run each JTI is consumed at most once and a login lineage has at most one live refresh key and one valid session |
| SessionTheorems.OldPairStaysDead | internal/server/handlers/auth.go:212-218 | after a successful refresh the old refresh key and the old session are never valid again, in every continuation |
| SessionLife.IssuedPairIsLive | internal/server/handlers/auth.go:225-231 | after a login, or a refresh with a live key, the new JTI has a live refresh key and a valid session with full lifetimes and is the newest of its lineage |
| SessionLife.KeyLiveIff | internal/store/refresh_store.go:31-45 | in every continuation of a run a live refresh key is live if and only if it has not expired and no request used it up or revoked its user |
| SessionLife.SessionValidIff | internal/store/refresh_store.go:74-98 | a valid session stays valid until it expires or a request ends it; with accessTTL <= refreshTTL it is valid exactly that long |
| SessionLife.NewestTokenRefreshes | internal/server/handlers/auth.go:212-233 | a refresh with the newest token of a lineage, left alone for less than the refresh TTL, succeeds: the next pair is live and valid, the first dead |
| SessionLife.LogoutWithRefreshEndsKey | internal/server/handlers/auth.go:251-267 | such a logout ends that key, no other key and no session |
| SessionTheorems.RunKeepsIndexed | internal/store/refresh_store.go:74-84 | if accessTTL <= refreshTTL, user_sessions lists every valid session and outlives it |
| SessionTheorems.RevokeAllLogsOut | internal/store/refresh_store.go:48-71 | then revoking leaves the user no key and no session if and only if it found a live key or there was no session, and nobody else is touched |
| SessionTheorems.RevokeAllCanMiss | internal/store/refresh_store.go:54-56 | log in, log out with the refresh token: the session stays valid and revoking changes nothing |
| SessionTheorems.RevocationCompleteIff | internal/store/refresh_store.go:73-84 | finding a live key is enough for a full logout in all runs if and only if accessTTL <= refreshTTL |
| SessionTheorems.LongAccessEscapes | internal/store/refresh_store.go:83-83 | with a longer access TTL a run ends with a session that revoking misses |
| RefreshStore.Store.Consume | internal/store/refresh_store.go:35-45 | succeeds if and only if the key is live, and then removes it |
| RefreshStore.Store.RevokeAll | internal/store/refresh_store.go:48-71 | the early return and the loop over the listed sessions have the effect of the model |
| RefreshStore.Store.PutSession | internal/store/refresh_store.go:74-84 | the session key and the member added to the index, whose expiry is renewed |
| RefreshStore.Store.SessionValid | internal/store/refresh_store.go:92-98 | true if and only if the session key exists |
| RefreshStore.Store.Login | internal/server/handlers/auth.go:147-154 | a fresh token pair opens a lineage |
| RefreshStore.Store.Refresh | internal/server/handlers/auth.go:191-234 | consume, invalidate, issue: the whole rotation as one model step, refused if and only if the key is not live |
| RefreshStore.Store.LogoutWithRefresh | internal/server/handlers/auth.go:251-267 | consumes the one key and leaves the session |
| RefreshStore.Store.LogoutWithAccess | internal/server/handlers/auth.go:269-280 | revokes everything of the user |
| CargoList.Build | internal/cargo/repo.go:227-310 | for every filter and row the assembled WHERE text evaluates to the plain filter predicate (a malformed date is a query error), its placeholders are $1..$k in order, and LIMIT and OFFSET bind the last two arguments |
| CargoList.StatusNames | internal/cargo/model.go:11-23 | the eleven status names |
| CargoList.FilterInWords | internal/cargo/repo.go:233-270 | what the filter asks of a row, field by field |
| CargoList.DatesCompareAsText | internal/cargo/repo.go:258-267 | calendar dates compare like their texts |
| CargoList.PagingInWords | internal/cargo/repo.go:295-305 | 20 rows by default, never more than 100, and the full pages before this one are skipped |
| CargoList.AppendArg | internal/cargo/repo.go:243-267 | appending a condition with its argument conjoins its meaning and keeps the numbering |
| CargoList.StatusListContainsSearching | internal/cargo/repo.go:328-336 | true if and only if one of the three searching words is in the list |
| CargoList.PagesPartition | internal/cargo/repo.go:295-306 | over a fixed order the pages concatenate to the whole result, a row is on exactly one page, and pages below 1 are page 1 |
| CargoList.ShownIffAdmitted | internal/server/handlers/cargo.go:169-180 | for a driver with a company, a listing by a searching status shows exactly the cargos on which CreateOffer admits that driver |
| CargoList.DriverListing | internal/server/handlers/cargo.go:154-195 | the query built for such a listing evaluates on the row of any cargo to whether CreateOffer admits the driver on it |
| CargoUpdate.StatementIsRecordUpdate | internal/cargo/repo.go:388-455 | running the assembled statement changes exactly the requested columns, to the requested values, of exactly the addressed undeleted row |
| CargoUpdate.Assemble | internal/cargo/repo.go:389-447 | the columns set are exactly those with a field present, each bound to its own argument, with argN = len(args) + 1 |
| CargoUpdate.FieldsLand | internal/cargo/repo.go:396-422 | which of the first nine fields lands in which column |
| CargoUpdate.DetailsLand | internal/cargo/repo.go:423-447 | the same for the other eight |
| CargoUpdate.AbsentFieldsAskNothing | internal/cargo/repo.go:396-422 | a column is asked for if and only if its field is present |
| CargoUpdate.AbsentDetailsAskNothing | internal/cargo/repo.go:423-447 | the same for the other eight |
| CargoUpdate.Builder.Add | internal/cargo/repo.go:392-395 | one call of the closure keeps that correspondence |
| CargoUpdate.Builder.NextArgNum | internal/cargo/repo.go:339-343 | returns the current number and advances it |
| CargoUpdate.Repo.Update | internal/cargo/repo.go:369-500 | not found, refused, or the record update with route points and payment, and no other row changes |
| LikeSearch.PassesAreOneEscape | internal/appusers/repo.go:77-82 | the three replacement passes equal one escape per character |
| LikeSearch.EscapingIsExact | internal/appusers/repo.go:94-95 | the escaped query matches exactly itself, with % behind it exactly the texts that start with it, with % on both sides exactly the texts that contain it |
| LikeSearch.ILikeIsExact | internal/appusers/repo.go:101-105 | the same for ILIKE up to letter case |
| LikeSearch.FoundMeansContains | internal/appusers/repo.go:97-101 | the search finds exactly the owners with the query inside phone, first or last name |
| LikeSearch.OwnerRole | internal/appusers/repo.go:100-100 | an owner is a user whose role is OWNER between any number of spaces |
| LikeSearch.MatchesInWords | internal/appusers/repo.go:103-104 | an exact match and a match at the start, field by field |
| LikeSearch.DocumentedOrderIff | internal/appusers/repo.go:84-106 | exact matches come first; "starts with" before "contains" holds if and only if the other row has no NULL name |
| LikeSearch.NullNameOvertakes | internal/appusers/repo.go:102-106 | two rows for which the documented order fails |
| CityCodes.CodeFromName | internal/reference/cities.go:33-47 | the nested loops return the first three letters of the name in upper case |
| CityCodes.LoadCities | internal/reference/cities.go:50-87 | the loop over the nested counter map gives each city the code of its running number |
| CityCodes.LettersInWords | internal/reference/cities.go:31-46 | the letters of a name are its characters a-z and A-Z in order, in upper case |
| CityCodes.CodeOfNth | internal/reference/cities.go:57-86 | the city that n others of its country and base precede: the base alone, the base and n, or the first eight bytes of that; id, name and country |
| CityCodes.UniqueIff | internal/reference/cities.go:66-76 | codes have at most eight bytes, and (country, code) is unique if and only if no base code is used more than 10^(8 - length) times in a country |
| CityCodes.IdsDistinct | internal/reference/cities.go:78-86 | with at most 100000 cities per country and base all codes and all ids are distinct |
| CityCodes.LabelsCollide | internal/reference/cities.go:71-76 | the first number that no longer fits is cut onto a tenth of itself, so the bound is tight |
| Decimal.ItoaInjective | internal/reference/cities.go:72-72 | different numbers have different decimal texts |
| ReferenceSearch.RawMatchIsNormMatch | internal/server/handlers/reference.go:393-393 | a code that contains the raw upper-case query contains the normalised query in normal form |
| ReferenceSearch.NormInWords | internal/server/handlers/reference.go:489-502 | the normal form keeps the trimmed text in lower case without spaces and the listed punctuation |
| ReferenceSearch.RankLevels | internal/server/handlers/reference.go:419-458 | the meaning of every rank: 0, 2, 4 for an exact hit, a hit at the start and a hit inside the code, 1, 3, 5 for a name, best one counts |
| ReferenceSearch.RankBelowNine | internal/server/handlers/reference.go:419-458 | for a query with a normal form the rank is below 9 if and only if code or a name has a match |
| ReferenceSearch.CityFilterIsRank | internal/server/handlers/reference.go:392-402 | a city survives the filter if and only if its rank is below 9 |
| ReferenceSearch.CitySearch | internal/server/handlers/reference.go:418-474 | the answer is the stably sorted permutation of the survivors, which are the ranked cities of the country, and every hit on the code precedes everything of non-zero rank |
| ReferenceSearch.CitiesInOrder | internal/server/handlers/reference.go:460-473 | any two cities of the answer stand in the order of rank, country, code and name |
| ReferenceSearch.CitiesWithoutQuery | internal/server/handlers/reference.go:392-418 | without a query in normal form the answer is the cities of the country, or all, each as often as in the directory and in its order |
| ReferenceSearch.NameInLanguage | internal/server/handlers/reference.go:319-343 | the name shown is the one of the language unless blank, then the other |
| ReferenceSearch.CityItemsShow | internal/server/handlers/reference.go:476-479 | one item per city, with its id, code, country and name |
| ReferenceSearch.GetReferenceCities | internal/server/handlers/reference.go:347-480 | the handler with its loops returns that answer, or refuses an unknown language |
| ReferenceSearch.CountryFilterIsRankIff | internal/server/handlers/reference.go:525-600 | filter and rank agree on a country if and only if the query has a normal form or is the code |
| ReferenceSearch.DashPassesUnranked | internal/server/handlers/reference.go:525-600 | the query "-" passes every country through the filter and gives each with another code rank 9 |
| ReferenceSearch.CountrySearch | internal/server/handlers/reference.go:551-611 | the answer for countries: stably sorted permutation of the ranked ones, hits on the code first |
| ReferenceSearch.CountriesInOrder | internal/server/handlers/reference.go:601-611 | any two countries of the answer stand in the order of rank, code and name |
| ReferenceSearch.CountriesWithoutQuery | internal/server/handlers/reference.go:521-549 | without a query the answer is the directory |
| ReferenceSearch.CountryItemsShow | internal/server/handlers/reference.go:545-548 | one item per country, with its code and its name in the asked language |
| ReferenceSearch.GetReferenceCountries | internal/server/handlers/reference.go:505-614 | the handler with its loop returns that answer, or refuses an unknown language |
| StableSort.SortIsStable | internal/server/handlers/reference.go:460-473 | the sorted list is ordered by rank, country, code and name, is a permutation, and keeps the order of equal keys |
| StableSort.SortedInWords | internal/server/handlers/reference.go:460-473 | what sorted means: rank, then country, then code, then name do not fall |
| StableSort.StableSortIsUnique | internal/server/handlers/reference.go:601-611 | two sorted, stable rearrangements of a list are equal, so the library's algorithm does not matter |
| Uuids.TextOrderIsByteOrder | internal/chat/repo.go:24-27 | the lowercase dashed texts of two UUIDs compare like their sixteen bytes |
| Chat.OrderedPair | internal/infra/chat_schema.go:16-16 | the stored pair is symmetric in the two users, holds exactly them and satisfies the CHECK |
| Chat.OnePairEach | internal/infra/chat_schema.go:16-17 | under CHECK and UNIQUE two conversations of the same two users are the same |
| ChatRepo.Repo.GetOrCreateConversation | internal/chat/repo.go:20-39 | refuses a conversation with oneself; otherwise answers the conversation of exactly these two users, inserting only if there is none, and keeps CHECK and UNIQUE |
| Chat.PagingIsComplete | internal/chat/repo.go:87-126 | following the last id of each page ends, with any limit, while messages are added, edited and soft-deleted: newest first, nothing twice, and every message of the first moment that stays undeleted is returned |
| Chat.StillPaging | internal/chat/repo.go:99-111 | on an unchanged table the pages concatenate to the listing itself |
| Chat.PageRows | internal/chat/repo.go:87-111 | a page holds undeleted messages of the conversation, newest first, at most the limit, 50 by default |
| Chat.PageBelowCursor | internal/chat/repo.go:108-108 | it is older than the cursor message |
| Chat.UnknownCursor | internal/chat/repo.go:108-108 | after a cursor that is no message it is empty |
| Chat.PageHoldsNothingBack | internal/chat/repo.go:94-111 | an undeleted older message of the conversation is on the page, or the page is full of newer ones |
| Chat.CollectedRowsBelong | internal/chat/repo.go:103-111 | every row a walk returns was an undeleted message of the conversation at that moment |
| Chat.WalkReturnsAll | internal/chat/repo.go:87-126 | a walk to the end returns every message of the first moment that stays undeleted |
| Chat.WalkDescends | internal/chat/repo.go:99-110 | and returns rows newest first, so none twice |
| Chat.NewestBelow | internal/chat/repo.go:103-110 | the rows below the k-th row of a listing are the rest of that listing |
| ChatRepo.Select | internal/chat/repo.go:94-124 | reading rows newest first up to the limit yields the prefix of the listing |
| ChatRepo.Repo.ListMessages | internal/chat/repo.go:87-126 | each of the two users of the conversation gets the page of the cursor, everybody else nothing |
| ChatRepo.Repo.CreateMessage | internal/chat/repo.go:129-142 | succeeds if and only if the sender is one of the two users, and appends one message, which is a step that paging tolerates |
| ChatRepo.Repo.UpdateMessage | internal/chat/repo.go:145-156 | only the sender's undeleted message changes, and only its body |
| ChatRepo.Repo.DeleteMessage | internal/chat/repo.go:159-171 | only the sender's undeleted message is marked; otherwise not found and nothing changes |
| ChatRepo.OpenAndPost | internal/chat/repo.go:20-142 | after two users opened a conversation either can post and both list the same page |

## Left out

- HTTP binding, validation, JSON, messages in five languages, Swagger, logging, configuration, photo upload and the Telegram client: plumbing around the modelled steps.
- GoAdmin: it can write any status, so no protocol property survives it.
- JWT signing, SHA-256 and bcrypt: tokens are fresh values and the hash is injective.
- Interleavings of single SQL statements and Go data races: several invariants need the atomic handlers assumed above.
- The hub, presence and typing keys of the chat (internal/chat/hub.go, internal/chat/presence.go): their facts are per-call index bookkeeping.
- Prices, currencies, comments and rejection reasons of offers: they decide nothing in the protocol.
- CargoList.Build: date parameters in other spellings that PostgreSQL accepts count as malformed; only `YYYY-MM-DD` of the calendar is a date.
- Parsing of the sort parameter of the cargo list: the pages are proved for an arbitrary fixed order of the rows.
- The total count of the cargo list: the same WHERE text without LIMIT and OFFSET.
- Request checks of PUT cargo and the conversion to UpdateParams: the update is proved for every UpdateParams value.
- Route points and payments inside an update are opaque values; their own INSERT statements are not modelled.
- SwitchCompany tokens, roles and permissions, invitations, KYC and registration: decided outside the modelled stores.
- Unicode case folding and white space beyond ASCII in the searches.
- The supplemental city list, coordinates and country name tables: datasets are arbitrary inputs.
- Conversation lists ordered by last message.
