/** The refresh store and the handlers Refresh and Logout as code over Redis keys. */
module RefreshStore {
  import Model = SessionModel

  type User = Model.User
  type Jti = Model.Jti

  class Store {
    const cfg: Model.Config
    var now: nat
    var refresh: map<(User, Jti), nat>
    var sessions: map<Jti, Model.Session>
    var index: map<User, Model.Index>
    ghost var roots: map<Jti, Jti>
    ghost var heads: map<Jti, Jti>
    ghost var owners: map<Jti, User>
    ghost var consumed: seq<Jti>

    ghost function Keys(): Model.State
      reads this
    {
      Model.State(now, refresh, sessions, index, roots, heads, owners, consumed)
    }

    constructor (cfg: Model.Config)
      ensures Keys() == Model.EMPTY && this.cfg == cfg
    {
      this.cfg := cfg;
      now, refresh, sessions, index := 0, map[], map[], map[];
      roots, heads, owners, consumed := map[], map[], map[], [];
    }

    method Tick(seconds: nat)
      modifies this`now
      ensures Keys() == Model.Step(cfg, old(Keys()), Model.Tick(seconds))
    {
      now := now + seconds;
    }

    method Put(u: User, jti: Jti)
      modifies this`refresh
      ensures Keys() == Model.Put(cfg, old(Keys()), u, jti)
    {
      refresh := refresh[(u, jti) := now + cfg.refreshTTL];
    }

    /** DEL, and an error unless it removed a key. */
    method Consume(u: User, jti: Jti) returns (ok: bool)
      modifies this`refresh, this`consumed
      ensures ok <==> Model.KeyLive(old(Keys()), u, jti)
      ensures Keys() == if ok then Model.Consume(old(Keys()), u, jti) else old(Keys())
    {
      ok := (u, jti) in refresh && now < refresh[(u, jti)];
      if ok {
        refresh := refresh - {(u, jti)};
        consumed := consumed + [jti];
      }
    }

    method RevokeAll(u: User)
      modifies this`refresh, this`sessions, this`index
      ensures Keys() == Model.RevokeAll(old(Keys()), u)
    {
      var keys := set k | k in refresh && k.0 == u && now < refresh[k];
      assert keys == Model.LiveKeys(old(Keys()), u);
      if |keys| == 0 {
        return;
      }
      refresh := refresh - keys;
      var sids: set<Jti> := if u in index && now < index[u].expires then index[u].sids else {};
      ghost var members := sids;
      while sids != {}
        invariant sids <= members
        invariant index == old(index) && refresh == old(refresh) - keys
        invariant sessions == old(sessions) - (members - sids)
        decreases |sids|
      {
        var sid :| sid in sids;
        sessions := sessions - {sid};
        sids := sids - {sid};
      }
      assert members - sids == members == Model.Members(old(Keys()), u);
      index := index - {u};
    }

    method PutSession(u: User, sid: Jti)
      modifies this`sessions, this`index
      ensures Keys() == Model.PutSession(cfg, old(Keys()), u, sid)
    {
      sessions := sessions[sid := Model.Session(u, now + cfg.accessTTL)];
      var members: set<Jti> := if u in index && now < index[u].expires then index[u].sids else {};
      index := index[u := Model.Index(members + {sid}, now + cfg.refreshTTL)];
    }

    method InvalidateSession(sid: Jti)
      modifies this`sessions
      ensures Keys() == Model.InvalidateSession(old(Keys()), sid)
    {
      sessions := sessions - {sid};
    }

    method SessionValid(sid: Jti) returns (valid: bool)
      ensures valid <==> Model.SessionValid(Keys(), sid)
    {
      valid := sid in sessions && now < sessions[sid].expires;
    }

    /* ---------- handlers ---------- */

    /** Token issuing after a successful OTP check; the generator never repeats a JTI. */
    method Login(u: User, newJti: Jti)
      requires newJti !in roots
      modifies this
      ensures Keys() == Model.Step(cfg, old(Keys()), Model.Login(u, newJti))
    {
      Put(u, newJti);
      PutSession(u, newJti);
      roots, heads, owners := roots[newJti := newJti], heads[newJti := newJti], owners[newJti := u];
    }

    method Refresh(u: User, jti: Jti, newJti: Jti) returns (ok: bool)
      requires newJti !in roots
      modifies this
      ensures ok <==> Model.KeyLive(old(Keys()), u, jti)
      ensures Keys() == Model.Step(cfg, old(Keys()), Model.Refresh(u, jti, newJti))
    {
      ok := Consume(u, jti);
      if !ok {
        return;
      }
      InvalidateSession(jti);
      Put(u, newJti);
      PutSession(u, newJti);
      ghost var root := if jti in roots then roots[jti] else jti;
      roots, heads, owners := roots[newJti := root], heads[root := newJti], owners[newJti := u];
    }

    method LogoutWithRefresh(u: User, jti: Jti) returns (ok: bool)
      modifies this`refresh, this`consumed
      ensures ok <==> Model.KeyLive(old(Keys()), u, jti)
      ensures Keys() == Model.Step(cfg, old(Keys()), Model.LogoutWithRefresh(u, jti))
    {
      ok := Consume(u, jti);
    }

    method LogoutWithAccess(u: User)
      modifies this`refresh, this`sessions, this`index
      ensures Keys() == Model.Step(cfg, old(Keys()), Model.LogoutWithAccess(u))
    {
      RevokeAll(u);
    }
  }
}
