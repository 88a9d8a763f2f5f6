/** Rotation and revocation over whole runs. */
module SessionTheorems {
  import opened SessionModel

  /** j was issued to u and nothing was issued after it in its lineage. */
  ghost predicate IsHead(s: State, u: User, j: Jti) {
    && j in s.roots && j in s.owners && s.owners[j] == u
    && s.roots[j] in s.heads && s.heads[s.roots[j]] == j
  }

  ghost predicate Lineages(s: State) {
    && (forall j :: j in s.owners <==> j in s.roots)
    && (forall j | j in s.roots ::
          && j in s.owners && s.roots[j] in s.heads
          && s.roots[j] in s.roots && s.roots[s.roots[j]] == s.roots[j])
    && (forall r | r in s.heads :: s.heads[r] in s.roots && s.roots[s.heads[r]] == r)
  }

  ghost predicate KeysAreHeads(s: State) {
    forall u, j | (u, j) in s.refresh :: IsHead(s, u, j) && j !in s.consumed
  }

  ghost predicate SessionsAreHeads(s: State) {
    forall j | j in s.sessions :: IsHead(s, s.sessions[j].user, j)
  }

  ghost predicate IndexOwned(s: State) {
    forall u, j | u in s.index && j in s.index[u].sids :: j in s.owners && s.owners[j] == u
  }

  ghost predicate ConsumedOnce(s: State) {
    && (forall j | j in s.consumed :: j in s.roots)
    && (forall i, k | 0 <= i < k < |s.consumed| :: s.consumed[i] != s.consumed[k])
  }

  ghost predicate Rotating(s: State) {
    Lineages(s) && KeysAreHeads(s) && SessionsAreHeads(s) && IndexOwned(s) && ConsumedOnce(s)
  }

  lemma IssueKeepsHeads(s: State, s': State, owner: User, newJti: Jti, root: Jti, u: User, j: Jti)
    requires Lineages(s) && newJti !in s.roots && IsHead(s, u, j)
    requires root == newJti || (root in s.heads && s.heads[root] != j)
    requires s'.roots == s.roots[newJti := root] && s'.heads == s.heads[root := newJti]
    requires s'.owners == s.owners[newJti := owner]
    ensures IsHead(s', u, j)
  {
    assert s.roots[j] in s.roots;
  }

  lemma IssueKeepsLineages(s: State, s': State, owner: User, newJti: Jti, root: Jti)
    requires Lineages(s) && newJti !in s.roots && (root == newJti || root in s.heads)
    requires s'.roots == s.roots[newJti := root] && s'.heads == s.heads[root := newJti]
    requires s'.owners == s.owners[newJti := owner]
    ensures Lineages(s')
  {
    forall r | r in s.heads ensures r in s.roots && s.roots[r] == r && s.heads[r] != newJti {
      assert s.roots[s.heads[r]] == r;
    }
    forall j | j in s'.roots
      ensures s'.roots[j] in s'.heads && s'.roots[j] in s'.roots && s'.roots[s'.roots[j]] == s'.roots[j]
    {
      if j != newJti { assert s'.roots[j] == s.roots[j]; }
    }
    forall r | r in s'.heads ensures s'.heads[r] in s'.roots && s'.roots[s'.heads[r]] == r {
      if r != root { assert s'.heads[r] == s.heads[r]; }
    }
  }

  /** Issuing replaces the head of a lineage; every other head stays. */
  lemma IssueKeepsRotating(cfg: Config, s: State, u: User, newJti: Jti, root: Jti)
    requires Rotating(s) && newJti !in s.roots
    requires root == newJti ||
             (&& root in s.heads && s.heads[root] !in s.sessions
              && forall v :: (v, s.heads[root]) !in s.refresh)
    ensures Rotating(Issue(cfg, s, u, newJti, root))
  {
    var s' := Issue(cfg, s, u, newJti, root);
    IssueKeepsLineages(s, s', u, newJti, root);
    IssueKeepsKeys(s, s', u, newJti, root);
    IssueKeepsSessions(s, s', u, newJti, root);
    IssueKeepsIndexOwned(cfg, s, u, newJti, root);
  }

  ghost predicate Issued(s: State, s': State, u: User, newJti: Jti, root: Jti) {
    && s'.roots == s.roots[newJti := root] && s'.heads == s.heads[root := newJti]
    && s'.owners == s.owners[newJti := u] && s'.consumed == s.consumed
    && (forall v, j | (v, j) in s'.refresh :: (v, j) in s.refresh || (v == u && j == newJti))
    && (forall j | j in s'.sessions && j != newJti :: j in s.sessions && s'.sessions[j] == s.sessions[j])
    && (newJti in s'.sessions ==> s'.sessions[newJti].user == u)
  }

  lemma IssueKeepsKeys(s: State, s': State, u: User, newJti: Jti, root: Jti)
    requires Lineages(s) && KeysAreHeads(s) && ConsumedOnce(s) && newJti !in s.roots && Issued(s, s', u, newJti, root)
    requires root == newJti || (root in s.heads && (forall v :: (v, s.heads[root]) !in s.refresh))
    ensures KeysAreHeads(s')
  {
    forall v, j | (v, j) in s'.refresh ensures IsHead(s', v, j) && j !in s'.consumed {
      if (v, j) in s.refresh {
        assert IsHead(s, v, j);
        IssueKeepsHeads(s, s', u, newJti, root, v, j);
      }
    }
  }

  lemma IssueKeepsSessions(s: State, s': State, u: User, newJti: Jti, root: Jti)
    requires Lineages(s) && SessionsAreHeads(s) && newJti !in s.roots && Issued(s, s', u, newJti, root)
    requires root == newJti || (root in s.heads && s.heads[root] !in s.sessions)
    ensures SessionsAreHeads(s')
  {
    forall j | j in s'.sessions ensures IsHead(s', s'.sessions[j].user, j) {
      if j != newJti {
        assert IsHead(s, s.sessions[j].user, j);
        IssueKeepsHeads(s, s', u, newJti, root, s.sessions[j].user, j);
      }
    }
  }

  lemma IssueKeepsIndexOwned(cfg: Config, s: State, u: User, newJti: Jti, root: Jti)
    requires IndexOwned(s) && ConsumedOnce(s) && newJti !in s.roots && newJti !in s.owners
    ensures IndexOwned(Issue(cfg, s, u, newJti, root)) && ConsumedOnce(Issue(cfg, s, u, newJti, root))
  {
  }

  lemma FewerKeysRotating(s: State, s': State)
    requires Rotating(s)
    requires s' == s.(refresh := s'.refresh, sessions := s'.sessions, index := s'.index, now := s'.now)
    requires forall u, j | (u, j) in s'.refresh :: (u, j) in s.refresh
    requires forall j | j in s'.sessions :: j in s.sessions && s'.sessions[j] == s.sessions[j]
    requires forall u | u in s'.index :: u in s.index && s'.index[u] == s.index[u]
    ensures Rotating(s')
  {
    assert forall u, j :: IsHead(s', u, j) <==> IsHead(s, u, j);
  }

  lemma ConsumeKeepsRotating(s: State, u: User, j: Jti)
    requires Rotating(s) && (u, j) in s.refresh
    ensures Rotating(Consume(s, u, j))
    ensures forall v :: (v, j) !in Consume(s, u, j).refresh
  {
    var s' := Consume(s, u, j);
    assert IsHead(s, u, j);
    forall v, i | (v, i) in s'.refresh ensures IsHead(s', v, i) && i !in s'.consumed {
      assert (v, i) in s.refresh && IsHead(s, v, i);
    }
    forall i | i in s'.sessions ensures IsHead(s', s'.sessions[i].user, i) {
      assert IsHead(s, s.sessions[i].user, i);
    }
  }

  lemma RefreshKeepsRotating(cfg: Config, s: State, u: User, j: Jti, newJti: Jti)
    requires Rotating(s) && newJti !in s.roots && KeyLive(s, u, j)
    ensures Rotating(Step(cfg, s, Refresh(u, j, newJti)))
  {
    assert IsHead(s, u, j);
    var s1 := Consume(s, u, j);
    ConsumeKeepsRotating(s, u, j);
    var s2 := InvalidateSession(s1, j);
    FewerKeysRotating(s1, s2);
    IssueKeepsRotating(cfg, s2, u, newJti, s.roots[j]);
  }

  lemma StepKeepsRotating(cfg: Config, s: State, e: Event)
    requires Rotating(s)
    ensures Rotating(Step(cfg, s, e))
  {
    match e
    case Login(u, newJti) => if newJti !in s.roots { IssueKeepsRotating(cfg, s, u, newJti, newJti); }
    case Refresh(u, j, newJti) =>
      if newJti !in s.roots && KeyLive(s, u, j) { RefreshKeepsRotating(cfg, s, u, j, newJti); }
    case LogoutWithRefresh(u, j) => if KeyLive(s, u, j) { ConsumeKeepsRotating(s, u, j); }
    case LogoutWithAccess(u) => FewerKeysRotating(s, RevokeAll(s, u));
    case Tick(seconds) => FewerKeysRotating(s, Step(cfg, s, e));
  }

  lemma {:induction false} RunKeepsRotating(cfg: Config, es: seq<Event>)
    ensures Rotating(Run(cfg, es))
  {
    if es != [] {
      RunKeepsRotating(cfg, es[..|es| - 1]);
      StepKeepsRotating(cfg, Run(cfg, es[..|es| - 1]), es[|es| - 1]);
    }
  }

  /* ---------- rotation ---------- */

  /** In every run a refresh JTI is consumed at most once, and a login lineage has at most one live
      refresh key and at most one valid session. */
  lemma OneLivePerLineage(cfg: Config, es: seq<Event>, u1: User, u2: User, j1: Jti, j2: Jti)
    requires j1 in Run(cfg, es).roots && j2 in Run(cfg, es).roots
    requires Run(cfg, es).roots[j1] == Run(cfg, es).roots[j2]
    ensures KeyLive(Run(cfg, es), u1, j1) && KeyLive(Run(cfg, es), u2, j2) ==> j1 == j2 && u1 == u2
    ensures SessionValid(Run(cfg, es), j1) && SessionValid(Run(cfg, es), j2) ==> j1 == j2
    ensures forall i, k | 0 <= i < k < |Run(cfg, es).consumed| :: Run(cfg, es).consumed[i] != Run(cfg, es).consumed[k]
  {
    RunKeepsRotating(cfg, es);
    var s := Run(cfg, es);
    if KeyLive(s, u1, j1) && KeyLive(s, u2, j2) {
      assert IsHead(s, u1, j1) && IsHead(s, u2, j2);
    }
  }

  ghost predicate Retired(s: State, j: Jti) {
    j in s.roots && j !in s.sessions && (forall u :: (u, j) !in s.refresh)
  }

  lemma StepKeepsRetired(cfg: Config, s: State, e: Event, j: Jti)
    requires Retired(s, j)
    ensures Retired(Step(cfg, s, e), j)
  {
  }

  lemma RefreshRetires(cfg: Config, s: State, u: User, j: Jti, newJti: Jti)
    requires Rotating(s) && KeyLive(s, u, j) && newJti !in s.roots
    ensures Retired(Step(cfg, s, Refresh(u, j, newJti)), j)
  {
    forall v | (v, j) in s.refresh ensures v == u {
      assert IsHead(s, v, j) && IsHead(s, u, j);
    }
  }

  /** After a successful refresh the old token pair is dead for the rest of the run. */
  lemma {:induction false} OldPairStaysDead(cfg: Config, es: seq<Event>, u: User, j: Jti, newJti: Jti, more: seq<Event>)
    requires KeyLive(Run(cfg, es), u, j) && newJti !in Run(cfg, es).roots
    ensures
      var s := Run(cfg, es + [Refresh(u, j, newJti)] + more);
      Retired(s, j) && !SessionValid(s, j) && forall v :: !KeyLive(s, v, j)
  {
    var e := Refresh(u, j, newJti);
    if more == [] {
      RunThen(cfg, es, e);
      assert es + [e] + more == es + [e];
      RunKeepsRotating(cfg, es);
      RefreshRetires(cfg, Run(cfg, es), u, j, newJti);
    } else {
      var n := |more| - 1;
      var before := es + [e] + more[..n];
      OldPairStaysDead(cfg, es, u, j, newJti, more[..n]);
      RunThen(cfg, before, more[n]);
      assert es + [e] + more == before + [more[n]];
      StepKeepsRetired(cfg, Run(cfg, before), more[n], j);
    }
  }

  lemma RunThen(cfg: Config, es: seq<Event>, e: Event)
    ensures Run(cfg, es + [e]) == Step(cfg, Run(cfg, es), e)
  {
    assert (es + [e])[..|es|] == es;
  }

  /* ---------- revocation ---------- */

  /** user_sessions:<u> lists every valid session of u and outlives them all. */
  ghost predicate Indexed(cfg: Config, s: State) {
    forall j | SessionValid(s, j) ::
      var u := s.sessions[j].user;
      && s.sessions[j].expires <= s.now + cfg.accessTTL
      && u in s.index && j in s.index[u].sids && s.sessions[j].expires <= s.index[u].expires
  }

  lemma IssueKeepsIndexed(cfg: Config, s: State, u: User, newJti: Jti, root: Jti)
    requires cfg.accessTTL <= cfg.refreshTTL && Indexed(cfg, s)
    ensures Indexed(cfg, Issue(cfg, s, u, newJti, root))
  {
    var s' := Issue(cfg, s, u, newJti, root);
    forall j | SessionValid(s', j) && j != newJti
      ensures j in s.sessions && s'.sessions[j] == s.sessions[j] && SessionValid(s, j)
    {}
  }

  lemma RevokeKeepsIndexed(cfg: Config, s: State, u: User)
    requires Rotating(s) && Indexed(cfg, s)
    ensures Indexed(cfg, RevokeAll(s, u))
    ensures LiveKeys(s, u) != {} ==>
              forall j | SessionValid(RevokeAll(s, u), j) :: RevokeAll(s, u).sessions[j].user != u
  {
    var s' := RevokeAll(s, u);
    if LiveKeys(s, u) != {} {
      forall j | SessionValid(s', j)
        ensures SessionValid(s, j) && s.sessions[j].user != u && s'.sessions[j] == s.sessions[j]
      {
        assert SessionValid(s, j);
      }
    } else {
      assert s' == s;
    }
  }

  lemma FewerSessionsIndexed(cfg: Config, s: State, s': State)
    requires Indexed(cfg, s) && s'.index == s.index && s'.now >= s.now
    requires forall j | j in s'.sessions :: j in s.sessions && s'.sessions[j] == s.sessions[j]
    ensures Indexed(cfg, s')
  {
    assert forall j :: SessionValid(s', j) ==> SessionValid(s, j);
  }

  lemma RefreshKeepsIndexed(cfg: Config, s: State, u: User, j: Jti, newJti: Jti)
    requires cfg.accessTTL <= cfg.refreshTTL && Indexed(cfg, s)
    ensures Indexed(cfg, Step(cfg, s, Refresh(u, j, newJti)))
  {
    if newJti !in s.roots && KeyLive(s, u, j) {
      var s1 := InvalidateSession(Consume(s, u, j), j);
      FewerSessionsIndexed(cfg, s, s1);
      IssueKeepsIndexed(cfg, s1, u, newJti, if j in s.roots then s.roots[j] else j);
    }
  }

  lemma StepKeepsIndexed(cfg: Config, s: State, e: Event)
    requires cfg.accessTTL <= cfg.refreshTTL && Rotating(s) && Indexed(cfg, s)
    ensures Indexed(cfg, Step(cfg, s, e))
  {
    match e
    case Login(u, newJti) => if newJti !in s.roots { IssueKeepsIndexed(cfg, s, u, newJti, newJti); }
    case Refresh(u, j, newJti) => RefreshKeepsIndexed(cfg, s, u, j, newJti);
    case LogoutWithRefresh(u, j) => FewerSessionsIndexed(cfg, s, Step(cfg, s, e));
    case LogoutWithAccess(u) => RevokeKeepsIndexed(cfg, s, u);
    case Tick(_) => FewerSessionsIndexed(cfg, s, Step(cfg, s, e));
  }

  lemma {:induction false} RunKeepsIndexed(cfg: Config, es: seq<Event>)
    requires cfg.accessTTL <= cfg.refreshTTL
    ensures Indexed(cfg, Run(cfg, es))
  {
    if es != [] {
      RunKeepsIndexed(cfg, es[..|es| - 1]);
      RunKeepsRotating(cfg, es[..|es| - 1]);
      StepKeepsIndexed(cfg, Run(cfg, es[..|es| - 1]), es[|es| - 1]);
    }
  }

  ghost predicate HasSession(s: State, u: User) {
    exists j :: SessionValid(s, j) && s.sessions[j].user == u
  }

  /** u can neither refresh nor use an access token. */
  ghost predicate LoggedOut(s: State, u: User) {
    !AnyKeyLive(s, u) && !HasSession(s, u)
  }

  ghost predicate SameFor(s: State, s': State, v: User) {
    && (forall j :: KeyLive(s', v, j) <==> KeyLive(s, v, j))
    && (forall j :: (SessionValid(s', j) && s'.sessions[j].user == v) <==>
          (SessionValid(s, j) && s.sessions[j].user == v))
  }

  lemma LiveKeysMeaning(s: State, u: User)
    ensures LiveKeys(s, u) == {} <==> !AnyKeyLive(s, u)
  {
    if AnyKeyLive(s, u) {
      var j :| KeyLive(s, u, j);
      assert (u, j) in LiveKeys(s, u);
    } else if LiveKeys(s, u) != {} {
      var k :| k in LiveKeys(s, u);
      assert KeyLive(s, u, k.1);
    }
  }

  /** With accessTTL <= refreshTTL, revoking everything logs the user out exactly when it finds a live
      refresh key or there was no session to begin with; nobody else is touched. */
  lemma RevokeAllLogsOut(cfg: Config, es: seq<Event>, u: User, v: User)
    requires cfg.accessTTL <= cfg.refreshTTL && v != u
    ensures LoggedOut(RevokeAll(Run(cfg, es), u), u) <==> AnyKeyLive(Run(cfg, es), u) || !HasSession(Run(cfg, es), u)
    ensures SameFor(Run(cfg, es), RevokeAll(Run(cfg, es), u), v)
  {
    var s := Run(cfg, es);
    var s' := RevokeAll(s, u);
    RunKeepsRotating(cfg, es);
    RunKeepsIndexed(cfg, es);
    LiveKeysMeaning(s, u);
    LiveKeysMeaning(s', u);
    RevokeKeepsIndexed(cfg, s, u);
    RevokeSparesOthers(s, u, v);
  }

  lemma RevokeSparesKeys(s: State, u: User, v: User)
    requires v != u
    ensures forall j :: KeyLive(RevokeAll(s, u), v, j) <==> KeyLive(s, v, j)
  {
  }

  lemma RevokeSparesSession(s: State, u: User, v: User, j: Jti)
    requires Rotating(s) && v != u
    ensures
      var s' := RevokeAll(s, u);
      (SessionValid(s', j) && s'.sessions[j].user == v) <==> (SessionValid(s, j) && s.sessions[j].user == v)
  {
    if j in s.sessions && s.sessions[j].user == v {
      assert IsHead(s, v, j);
    }
  }

  lemma RevokeSparesOthers(s: State, u: User, v: User)
    requires Rotating(s) && v != u
    ensures SameFor(s, RevokeAll(s, u), v)
  {
    var s' := RevokeAll(s, u);
    RevokeSparesKeys(s, u, v);
    forall j ensures (SessionValid(s', j) && s'.sessions[j].user == v) <==>
                       (SessionValid(s, j) && s.sessions[j].user == v)
    {
      RevokeSparesSession(s, u, v, j);
    }
  }

  /** A user whose refresh token was consumed by a logout keeps the session: revoking then does nothing. */
  lemma RevokeAllCanMiss(cfg: Config, u: User, j: Jti)
    ensures
      var s := Run(cfg, [Login(u, j), LogoutWithRefresh(u, j)]);
      SessionValid(s, j) && RevokeAll(s, u) == s
  {
    var es := [Login(u, j), LogoutWithRefresh(u, j)];
    assert es[..1] == [Login(u, j)] && es[..1][..0] == [];
    assert Run(cfg, es[..1][..0]) == EMPTY;
    assert Run(cfg, es[..1]) == Step(cfg, EMPTY, Login(u, j));
    assert KeyLive(Run(cfg, es[..1]), u, j);
  }

  /** In every reachable state, finding a live key is enough to log the user out. */
  ghost predicate RevocationComplete(cfg: Config) {
    forall es: seq<Event>, u: User | AnyKeyLive(Run(cfg, es), u) :: LoggedOut(RevokeAll(Run(cfg, es), u), u)
  }

  /** The index expires with the refresh TTL, so a longer access TTL loses a session that is still
      valid: log in, wait one refresh TTL, log in again, revoke. */
  lemma LongAccessEscapes(cfg: Config, u: User)
    requires cfg.accessTTL > cfg.refreshTTL
    ensures !RevocationComplete(cfg)
  {
    var a, b := "a", "b";
    var s1 := Step(cfg, EMPTY, Login(u, a));
    var s2 := Step(cfg, s1, Tick(cfg.refreshTTL));
    var s3 := Step(cfg, s2, Login(u, b));
    assert Members(EMPTY, u) + {a} == {a};
    assert Members(s2, u) + {b} == {b} by { assert s1.index == map[u := Index({a}, cfg.refreshTTL)]; }
    assert s2.index == map[u := Index({a}, cfg.refreshTTL)] && Members(s2, u) == {};
    assert s3.sessions == map[a := Session(u, cfg.accessTTL), b := Session(u, cfg.refreshTTL + cfg.accessTTL)];
    assert Members(s3, u) == {b};
    assert KeyLive(s3, u, b);
    SessionSurvives(s3, u, a, b);
    var es := [Login(u, a), Tick(cfg.refreshTTL), Login(u, b)];
    ThreeSteps(cfg, es[0], es[1], es[2]);
  }

  lemma SessionSurvives(s: State, u: User, a: Jti, b: Jti)
    requires SessionValid(s, a) && s.sessions[a].user == u && a !in Members(s, u) && KeyLive(s, u, b)
    ensures AnyKeyLive(s, u) && !LoggedOut(RevokeAll(s, u), u)
  {
    LiveKeysMeaning(s, u);
    assert SessionValid(RevokeAll(s, u), a);
    assert HasSession(RevokeAll(s, u), u);
  }

  lemma ThreeSteps(cfg: Config, e1: Event, e2: Event, e3: Event)
    ensures Run(cfg, [e1, e2, e3]) == Step(cfg, Step(cfg, Step(cfg, EMPTY, e1), e2), e3)
  {
    var es := [e1, e2, e3];
    assert es[..2] == [e1, e2] && [e1, e2][..1] == [e1] && [e1][..0] == [];
    assert Run(cfg, [e1]) == Step(cfg, Run(cfg, []), e1);
    assert Run(cfg, [e1, e2]) == Step(cfg, Run(cfg, [e1]), e2);
  }

  /** Revocation is complete in all runs exactly when sessions do not outlive refresh tokens. */
  lemma RevocationCompleteIff(cfg: Config)
    ensures RevocationComplete(cfg) <==> cfg.accessTTL <= cfg.refreshTTL
  {
    if cfg.accessTTL <= cfg.refreshTTL {
      forall es: seq<Event>, u: User | AnyKeyLive(Run(cfg, es), u) ensures LoggedOut(RevokeAll(Run(cfg, es), u), u) {
        RevokeAllLogsOut(cfg, es, u, u + "'");
      }
    } else {
      LongAccessEscapes(cfg, "u");
    }
  }
}
