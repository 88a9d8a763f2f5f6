/**
 Refresh tokens and access sessions: the Redis keys refresh:<user>:<jti>, session:<sid> and
 user_sessions:<user> against a logical clock, and the handlers that use them as atomic steps.

 `roots`, `heads`, `owners` and `consumed` are history variables that no step reads, except that a
 step which would issue a JTI twice is not a step of the service (uuid.NewString).
 */
module SessionModel {
  type User = string
  type Jti = string
  type Seconds = n: nat | n > 0 witness 1

  datatype Config = Config(refreshTTL: Seconds, accessTTL: Seconds)

  datatype Session = Session(user: User, expires: nat)
  datatype Index = Index(sids: set<Jti>, expires: nat)

  datatype State = State(
    now: nat,
    refresh: map<(User, Jti), nat>,     // expiry
    sessions: map<Jti, Session>,
    index: map<User, Index>,
    roots: map<Jti, Jti>,               // every issued JTI -> the JTI of its login
    heads: map<Jti, Jti>,               // login -> the JTI issued last in its lineage
    owners: map<Jti, User>,
    consumed: seq<Jti>)

  const EMPTY := State(0, map[], map[], map[], map[], map[], map[], [])

  datatype Event =
    | Login(user: User, newJti: Jti)
    | Refresh(user: User, jti: Jti, newJti: Jti)
    | LogoutWithRefresh(user: User, jti: Jti)
    | LogoutWithAccess(user: User)
    | Tick(seconds: nat)

  predicate KeyLive(s: State, u: User, j: Jti) {
    (u, j) in s.refresh && s.now < s.refresh[(u, j)]
  }

  predicate SessionValid(s: State, sid: Jti) {
    sid in s.sessions && s.now < s.sessions[sid].expires
  }

  /** SMEMBERS user_sessions:<u>. */
  function Members(s: State, u: User): set<Jti> {
    if u in s.index && s.now < s.index[u].expires then s.index[u].sids else {}
  }

  function Put(cfg: Config, s: State, u: User, j: Jti): State {
    s.(refresh := s.refresh[(u, j) := s.now + cfg.refreshTTL])
  }

  function PutSession(cfg: Config, s: State, u: User, sid: Jti): State {
    s.(sessions := s.sessions[sid := Session(u, s.now + cfg.accessTTL)],
       index := s.index[u := Index(Members(s, u) + {sid}, s.now + cfg.refreshTTL)])
  }

  /** Tokens issued in the lineage of `root`. */
  function Issue(cfg: Config, s: State, u: User, newJti: Jti, root: Jti): State {
    PutSession(cfg, Put(cfg, s, u, newJti), u, newJti).(
      roots := s.roots[newJti := root],
      heads := s.heads[root := newJti],
      owners := s.owners[newJti := u])
  }

  function Consume(s: State, u: User, j: Jti): State {
    s.(refresh := s.refresh - {(u, j)}, consumed := s.consumed + [j])
  }

  function InvalidateSession(s: State, sid: Jti): State {
    s.(sessions := s.sessions - {sid})
  }

  ghost predicate AnyKeyLive(s: State, u: User) {
    exists j :: KeyLive(s, u, j)
  }

  /** All live refresh keys of u; without one the call does nothing at all. */
  function LiveKeys(s: State, u: User): set<(User, Jti)> {
    set k | k in s.refresh && k.0 == u && s.now < s.refresh[k]
  }

  function RevokeAll(s: State, u: User): State {
    if LiveKeys(s, u) == {} then s
    else s.(refresh := s.refresh - LiveKeys(s, u),
            sessions := s.sessions - Members(s, u),
            index := s.index - {u})
  }

  function Step(cfg: Config, s: State, e: Event): State {
    match e
    case Login(u, newJti) =>
      if newJti in s.roots then s else Issue(cfg, s, u, newJti, newJti)
    case Refresh(u, j, newJti) =>
      if newJti in s.roots || !KeyLive(s, u, j) then s
      else
        var root := if j in s.roots then s.roots[j] else j;
        Issue(cfg, InvalidateSession(Consume(s, u, j), j), u, newJti, root)
    case LogoutWithRefresh(u, j) =>
      if KeyLive(s, u, j) then Consume(s, u, j) else s
    case LogoutWithAccess(u) => RevokeAll(s, u)
    case Tick(seconds) => s.(now := s.now + seconds)
  }

  function Run(cfg: Config, es: seq<Event>): State {
    if es == [] then EMPTY else Step(cfg, Run(cfg, es[..|es| - 1]), es[|es| - 1])
  }
}
