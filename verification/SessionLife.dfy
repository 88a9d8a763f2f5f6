/** How long an issued token pair lives: exactly until it expires, is used up or revoked. */
module SessionLife {
  import opened SessionModel
  import opened SessionTheorems

  /* ---------- issuing ---------- */

  /** u holds the pair j: a refresh key for one refresh TTL and a session for one access TTL. */
  ghost predicate JustIssued(cfg: Config, s: State, u: User, j: Jti) {
    && (u, j) in s.refresh && s.refresh[(u, j)] == s.now + cfg.refreshTTL
    && j in s.sessions && s.sessions[j] == Session(u, s.now + cfg.accessTTL)
  }

  /** The request issues the pair j to u. */
  ghost predicate Issues(s: State, e: Event, u: User, j: Jti) {
    && j !in s.roots
    && (e == Login(u, j) || exists prior :: e == Refresh(u, prior, j) && KeyLive(s, u, prior))
  }

  lemma IssuingStep(cfg: Config, s: State, e: Event, u: User, j: Jti)
    requires Issues(s, e, u, j)
    ensures JustIssued(cfg, Step(cfg, s, e), u, j)
  {
  }

  /** A login, and a refresh with a live key, put a live refresh key and a valid session under the new
      JTI, with full lifetimes; it is the newest of its lineage. */
  lemma IssuedPairIsLive(cfg: Config, es: seq<Event>, e: Event, u: User, j: Jti)
    requires Issues(Run(cfg, es), e, u, j)
    ensures
      var s := Run(cfg, es + [e]);
      && KeyLive(s, u, j) && s.refresh[(u, j)] == s.now + cfg.refreshTTL
      && SessionValid(s, j) && s.sessions[j] == Session(u, s.now + cfg.accessTTL)
      && IsHead(s, u, j)
  {
    RunThen(cfg, es, e);
    IssuingStep(cfg, Run(cfg, es), e, u, j);
    RunKeepsRotating(cfg, es + [e]);
  }

  /* ---------- the refresh key ---------- */

  /** The request uses up or revokes the refresh key of j. */
  predicate EndsKey(s: State, e: Event, u: User, j: Jti) {
    match e
    case Refresh(v, i, newJti) => v == u && i == j && newJti !in s.roots
    case LogoutWithRefresh(v, i) => v == u && i == j
    case LogoutWithAccess(v) => v == u
    case _ => false
  }

  predicate KeyUntouched(cfg: Config, es: seq<Event>, more: seq<Event>, u: User, j: Jti) {
    more == []
    || (&& KeyUntouched(cfg, es, more[..|more| - 1], u, j)
        && !EndsKey(Run(cfg, es + more[..|more| - 1]), more[|more| - 1], u, j))
  }

  ghost predicate KeyHolds(s: State, u: User, j: Jti, expires: nat) {
    j in s.roots && (u, j) in s.refresh && s.refresh[(u, j)] == expires
  }

  ghost predicate KeyEnded(s: State, u: User, j: Jti) {
    j in s.roots && ((u, j) in s.refresh ==> s.refresh[(u, j)] <= s.now)
  }

  lemma KeyStep(cfg: Config, s: State, e: Event, u: User, j: Jti, expires: nat)
    requires KeyHolds(s, u, j, expires)
    ensures !EndsKey(s, e, u, j) ==> KeyHolds(Step(cfg, s, e), u, j, expires)
    ensures EndsKey(s, e, u, j) ==> KeyEnded(Step(cfg, s, e), u, j)
  {
    if e == LogoutWithAccess(u) && s.now < expires {
      assert (u, j) in LiveKeys(s, u);
    }
  }

  lemma EndedStep(cfg: Config, s: State, e: Event, u: User, j: Jti)
    requires KeyEnded(s, u, j)
    ensures KeyEnded(Step(cfg, s, e), u, j)
  {
  }

  lemma {:induction false} KeyAfter(cfg: Config, es: seq<Event>, more: seq<Event>, u: User, j: Jti, expires: nat)
    requires KeyHolds(Run(cfg, es), u, j, expires)
    ensures KeyUntouched(cfg, es, more, u, j) ==> KeyHolds(Run(cfg, es + more), u, j, expires)
    ensures !KeyUntouched(cfg, es, more, u, j) ==> KeyEnded(Run(cfg, es + more), u, j)
  {
    if more == [] {
      assert es + more == es;
    } else {
      var before, e := more[..|more| - 1], more[|more| - 1];
      KeyAfter(cfg, es, before, u, j, expires);
      assert es + more == es + before + [e];
      RunThen(cfg, es + before, e);
      if KeyUntouched(cfg, es, before, u, j) {
        KeyStep(cfg, Run(cfg, es + before), e, u, j, expires);
      } else {
        EndedStep(cfg, Run(cfg, es + before), e, u, j);
      }
    }
  }

  lemma LiveKeysAreIssued(cfg: Config, es: seq<Event>, u: User, j: Jti)
    requires KeyLive(Run(cfg, es), u, j)
    ensures j in Run(cfg, es).roots
  {
    RunKeepsRotating(cfg, es);
    assert IsHead(Run(cfg, es), u, j);
  }

  /** In every continuation of a run a live refresh key is live exactly as long as it has not expired and
      no request refreshed with it, logged out with it or logged its user out everywhere. */
  lemma KeyLiveIff(cfg: Config, es: seq<Event>, more: seq<Event>, u: User, j: Jti)
    requires KeyLive(Run(cfg, es), u, j)
    ensures KeyLive(Run(cfg, es + more), u, j) <==>
              Run(cfg, es + more).now < Run(cfg, es).refresh[(u, j)] && KeyUntouched(cfg, es, more, u, j)
  {
    LiveKeysAreIssued(cfg, es, u, j);
    KeyAfter(cfg, es, more, u, j, Run(cfg, es).refresh[(u, j)]);
  }

  /* ---------- the session ---------- */

  /** The request ends the session j of u: a refresh with its token, or a logout everywhere that finds a
      live key. */
  predicate EndsSession(s: State, e: Event, u: User, j: Jti) {
    match e
    case Refresh(v, i, newJti) => i == j && newJti !in s.roots && KeyLive(s, v, j)
    case LogoutWithAccess(v) => v == u && LiveKeys(s, u) != {}
    case _ => false
  }

  predicate SessionUntouched(cfg: Config, es: seq<Event>, more: seq<Event>, u: User, j: Jti) {
    more == []
    || (&& SessionUntouched(cfg, es, more[..|more| - 1], u, j)
        && !EndsSession(Run(cfg, es + more[..|more| - 1]), more[|more| - 1], u, j))
  }

  ghost predicate SessionHolds(s: State, u: User, j: Jti, expires: nat) {
    j in s.roots && j in s.sessions && s.sessions[j] == Session(u, expires)
  }

  ghost predicate SessionEnded(s: State, j: Jti) {
    j in s.roots && (j in s.sessions ==> s.sessions[j].expires <= s.now)
  }

  lemma SessionStep(cfg: Config, s: State, e: Event, u: User, j: Jti, expires: nat)
    requires Rotating(s) && SessionHolds(s, u, j, expires) && !EndsSession(s, e, u, j)
    ensures SessionHolds(Step(cfg, s, e), u, j, expires)
  {
    assert IsHead(s, u, j);
  }

  lemma SessionEnds(cfg: Config, s: State, e: Event, u: User, j: Jti, expires: nat)
    requires cfg.accessTTL <= cfg.refreshTTL && Rotating(s) && Indexed(cfg, s)
    requires SessionHolds(s, u, j, expires) && EndsSession(s, e, u, j)
    ensures SessionEnded(Step(cfg, s, e), j)
  {
    if e.LogoutWithAccess? {
      RevokeKeepsIndexed(cfg, s, u);
    }
  }

  lemma SessionEndedStep(cfg: Config, s: State, e: Event, j: Jti)
    requires SessionEnded(s, j)
    ensures SessionEnded(Step(cfg, s, e), j)
  {
  }

  lemma {:induction false} SessionAfter(cfg: Config, es: seq<Event>, more: seq<Event>, u: User, j: Jti, expires: nat)
    requires SessionHolds(Run(cfg, es), u, j, expires)
    ensures SessionUntouched(cfg, es, more, u, j) ==> SessionHolds(Run(cfg, es + more), u, j, expires)
    ensures cfg.accessTTL <= cfg.refreshTTL && !SessionUntouched(cfg, es, more, u, j) ==>
              SessionEnded(Run(cfg, es + more), j)
  {
    if more == [] {
      assert es + more == es;
    } else {
      var before, e := more[..|more| - 1], more[|more| - 1];
      SessionAfter(cfg, es, before, u, j, expires);
      assert es + more == es + before + [e];
      RunThen(cfg, es + before, e);
      var s := Run(cfg, es + before);
      RunKeepsRotating(cfg, es + before);
      if SessionUntouched(cfg, es, before, u, j) {
        if !EndsSession(s, e, u, j) {
          SessionStep(cfg, s, e, u, j, expires);
        } else if cfg.accessTTL <= cfg.refreshTTL {
          RunKeepsIndexed(cfg, es + before);
          SessionEnds(cfg, s, e, u, j, expires);
        }
      } else if cfg.accessTTL <= cfg.refreshTTL {
        SessionEndedStep(cfg, s, e, j);
      }
    }
  }

  lemma ValidSessionsAreIssued(cfg: Config, es: seq<Event>, j: Jti)
    requires SessionValid(Run(cfg, es), j)
    ensures j in Run(cfg, es).roots
  {
    RunKeepsRotating(cfg, es);
    assert IsHead(Run(cfg, es), Run(cfg, es).sessions[j].user, j);
  }

  /** In every continuation of a run a valid session stays valid until it expires, unless a request ends
      it; with accessTTL <= refreshTTL it is valid exactly that long. */
  lemma SessionValidIff(cfg: Config, es: seq<Event>, more: seq<Event>, u: User, j: Jti)
    requires SessionValid(Run(cfg, es), j) && Run(cfg, es).sessions[j].user == u
    ensures Run(cfg, es + more).now < Run(cfg, es).sessions[j].expires && SessionUntouched(cfg, es, more, u, j) ==>
              SessionValid(Run(cfg, es + more), j)
    ensures cfg.accessTTL <= cfg.refreshTTL ==>
              (SessionValid(Run(cfg, es + more), j) <==>
                 Run(cfg, es + more).now < Run(cfg, es).sessions[j].expires && SessionUntouched(cfg, es, more, u, j))
  {
    ValidSessionsAreIssued(cfg, es, j);
    SessionAfter(cfg, es, more, u, j, Run(cfg, es).sessions[j].expires);
  }

  /* ---------- rotation goes on ---------- */

  /** The newest token of a lineage refreshes: after a pair was issued and left alone for less than the
      refresh TTL, a refresh with it issues the next pair, live and valid, and ends the first. */
  lemma NewestTokenRefreshes(cfg: Config, es: seq<Event>, e: Event, more: seq<Event>, u: User, j: Jti, next: Jti)
    requires Issues(Run(cfg, es), e, u, j)
    requires KeyUntouched(cfg, es + [e], more, u, j)
    requires Run(cfg, es + [e] + more).now < Run(cfg, es + [e]).now + cfg.refreshTTL
    requires next !in Run(cfg, es + [e] + more).roots
    ensures
      var s := Run(cfg, es + [e] + more + [Refresh(u, j, next)]);
      && KeyLive(s, u, next) && SessionValid(s, next) && s.sessions[next].user == u
      && !KeyLive(s, u, j) && !SessionValid(s, j)
  {
    var here := es + [e] + more;
    IssuedPairIsLive(cfg, es, e, u, j);
    KeyLiveIff(cfg, es + [e], more, u, j);
    assert KeyLive(Run(cfg, here), u, j);
    IssuedPairIsLive(cfg, here, Refresh(u, j, next), u, next);
    OldPairStaysDead(cfg, here, u, j, next, []);
    assert here + [Refresh(u, j, next)] + [] == here + [Refresh(u, j, next)];
  }

  /** A logout with the refresh token ends the key and nothing else. */
  lemma LogoutWithRefreshEndsKey(cfg: Config, es: seq<Event>, u: User, j: Jti)
    ensures
      var s, s' := Run(cfg, es), Run(cfg, es + [LogoutWithRefresh(u, j)]);
      && !KeyLive(s', u, j)
      && (forall v, i | (v, i) != (u, j) :: KeyLive(s', v, i) <==> KeyLive(s, v, i))
      && (forall i :: SessionValid(s', i) <==> SessionValid(s, i))
  {
    RunThen(cfg, es, LogoutWithRefresh(u, j));
  }
}
