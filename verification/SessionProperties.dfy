/** Login, refresh and logout over whole histories. */
module SessionProperties {
  import opened Wrappers
  import opened Sessions

  // ---------------------------------------------------------------- every reachable state

  lemma {:induction false} RunKeepsInv(db: Db, actions: seq<Action>)
    requires Inv(db) && AllowedRun(db, actions)
    ensures Inv(Run(db, actions))
    decreases |actions|
  {
    hide Inv, Step;
    if actions != [] {
      StepKeepsInv(db, actions[0]);
      RunKeepsInv(Step(db, actions[0]), actions[1..]);
    }
  }

  predicate SessionEvolves(s: Session, s': Session, issued: set<RefreshToken>) {
    && s'.admin == s.admin && s'.client == s.client && s'.expiresAt == s.expiresAt
    && (s.revokedAt.Some? ==> s'.revokedAt == s.revokedAt)
    && (s'.current == s.current || s'.current !in issued)
  }

  /** Nothing issued is forgotten, sessions keep their expiry and stay revoked, a session's current
      token is only ever replaced by a new one, and epochs do not go down. */
  ghost predicate Evolves(db: Db, db': Db) {
    && (forall id :: id in db.sessions ==> id in db'.sessions && SessionEvolves(db.sessions[id], db'.sessions[id], db.refreshTokens))
    && (forall id :: id in db.admins ==> id in db'.admins && db.admins[id].epoch <= db'.admins[id].epoch)
    && db.refreshTokens <= db'.refreshTokens && db.accessTokens <= db'.accessTokens && db.now <= db'.now
  }

  lemma StepEvolves(db: Db, a: Action)
    requires Inv(db) && Allowed(db, a)
    ensures Evolves(db, Step(db, a))
  {
    hide AccessSound, OnePerClient;
    if a.DoLogin? {
      LoginEvolves(db, a);
    } else if a.DoBootstrap? {
      hide Inv;
      if db.admins == map[] {
        NoAdminNoSession(db);
      }
    }
  }

  lemma LoginEvolves(db: Db, a: Action)
    requires a.DoLogin? && Allowed(db, a)
    ensures Evolves(db, Step(db, a))
  {
    hide NewAccess;
  }

  lemma EvolvesTransitively(a: Db, b: Db, c: Db)
    requires Evolves(a, b) && Evolves(b, c)
    ensures Evolves(a, c)
  {
  }

  /** Over any run: expiries never move and revocations are for good. */
  lemma {:induction false} RunEvolves(db: Db, actions: seq<Action>)
    requires Inv(db) && AllowedRun(db, actions)
    ensures Evolves(db, Run(db, actions)) && Inv(Run(db, actions))
    decreases |actions|
  {
    hide Inv, Step, Evolves;
    if actions != [] {
      StepEvolves(db, actions[0]);
      StepKeepsInv(db, actions[0]);
      RunEvolves(Step(db, actions[0]), actions[1..]);
      EvolvesTransitively(db, Step(db, actions[0]), Run(db, actions));
    } else {
      EvolvesItself(db);
    }
  }

  lemma EvolvesItself(db: Db)
    ensures Evolves(db, db)
  {
  }

  /** In every reachable state a client has at most one session that is not revoked, and all tokens
      of a session share its expiry. */
  lemma ReachableSessions(actions: seq<Action>)
    requires AllowedRun(EMPTY, actions)
    ensures var db := Run(EMPTY, actions);
            && OnePerClient(db.sessions) && OneAdmin(db.admins)
            && forall t :: t in db.refreshTokens ==> t.session in db.sessions && t.expiresAt == db.sessions[t.session].expiresAt
  {
    EmptyIsSound();
    RunKeepsInv(EMPTY, actions);
  }

  // ---------------------------------------------------------------- refresh tokens

  /** A refresh succeeds exactly for the last token issued for an unrevoked session before it
      expires. An earlier one revokes the session; anything else changes nothing. */
  lemma RefreshAcceptsExactly(db: Db, t: RefreshToken, ids: Fresh)
    requires Inv(db)
    ensures var (db', reply) := Refresh(db, t, ids);
            var live := t in db.refreshTokens && t.session in db.sessions && t.expiresAt > db.now && db.sessions[t.session].revokedAt == None;
            && (reply.Ok? <==> live && t == db.sessions[t.session].current)
            && (reply == Err(RefreshReused) <==> live && t != db.sessions[t.session].current)
            && (reply.Ok? ==> reply.value.refresh == db'.sessions[t.session].current && reply.value.refresh.expiresAt == t.expiresAt)
            && (reply == Err(RefreshReused) ==> db'.sessions[t.session].revokedAt == Some(db.now))
            && (reply == Err(RefreshInvalid) ==> db' == db)
  {
    hide OnePerClient, OneAdmin;
    if t in db.refreshTokens {
      assert RefreshOf(t, t.session, db.sessions[t.session], db.now);
      assert db.sessions[t.session].admin in db.admins;
    }
  }

  /** A refresh token works once: after it was traded in, no later state accepts it again. */
  lemma RefreshTokensAreSingleUse(db: Db, t: RefreshToken, ids: Fresh, actions: seq<Action>, again: Fresh)
    requires Inv(db) && FreshIds(db, ids) && Refresh(db, t, ids).1.Ok? && AllowedRun(Refresh(db, t, ids).0, actions)
    ensures !Refresh(Run(Refresh(db, t, ids).0, actions), t, again).1.Ok?
  {
    hide Run, AllowedRun, AccessSound, OnePerClient, OneAdmin;
    var after := Refresh(db, t, ids).0;
    RefreshKeepsInv(db, t, ids);
    RunEvolves(after, actions);
    RefreshAcceptsExactly(db, t, ids);
    assert t in after.refreshTokens && after.sessions[t.session].current != t;
    RefreshAcceptsExactly(Run(after, actions), t, again);
  }

  /** Once revoked, a session is over for good: none of its tokens of either kind works again. */
  lemma RevokedForGood(db: Db, id: Uuid, actions: seq<Action>, t: RefreshToken, x: AccessToken, ids: Fresh)
    requires Inv(db) && AllowedRun(db, actions) && id in db.sessions && db.sessions[id].revokedAt.Some?
    requires t.session == id && x.session == id
    ensures !Refresh(Run(db, actions), t, ids).1.Ok? && Authenticate(Run(db, actions), x).Err?
  {
    hide Run, AllowedRun, Inv;
    RunEvolves(db, actions);
  }

  /** Presenting a token that was already traded in, before it expires, ends the session. */
  lemma ReuseEndsTheSession(db: Db, t: RefreshToken, ids: Fresh, actions: seq<Action>, u: RefreshToken, x: AccessToken)
    requires Inv(db) && t in db.refreshTokens && t.session in db.sessions && t != db.sessions[t.session].current && t.expiresAt > db.now
    requires AllowedRun(Refresh(db, t, ids).0, actions) && u.session == t.session && x.session == t.session
    ensures var later := Run(Refresh(db, t, ids).0, actions);
            !Refresh(later, u, ids).1.Ok? && Authenticate(later, x).Err?
  {
    hide Run, AllowedRun, Inv;
    RefreshAcceptsExactly(db, t, ids);
    RefreshKeepsInv(db, t, ids);
    RevokedForGood(Refresh(db, t, ids).0, t.session, actions, u, x, ids);
  }

  // ---------------------------------------------------------------- access tokens

  /** An access token is accepted exactly while it has not expired, its session is not revoked and
      nobody has logged out since it was issued. */
  lemma AuthenticatesExactly(db: Db, x: AccessToken)
    requires Inv(db)
    ensures Authenticate(db, x).Ok? <==>
              && x in db.accessTokens && x.expiresAt > db.now
              && x.session in db.sessions && db.sessions[x.session].revokedAt == None
              && x.admin in db.admins && x.epoch == db.admins[x.admin].epoch
  {
    hide OnePerClient, RefreshSound;
  }

  /** No access token issued before a logout is accepted after it, whatever session it is of. */
  lemma LogoutEndsAccess(db: Db, a: AccessToken, x: AccessToken, actions: seq<Action>)
    requires Inv(db) && Logout(db, a).1.Ok? && x in db.accessTokens && AllowedRun(Logout(db, a).0, actions)
    ensures Authenticate(Run(Logout(db, a).0, actions), x).Err?
  {
    hide Run, AllowedRun, OnePerClient, RefreshSound;
    LogoutKeepsInv(db, a);
    RunEvolves(Logout(db, a).0, actions);
  }

  /** But a logout ends only its own session: every other one goes on refreshing as before. */
  lemma LogoutEndsOneSession(db: Db, a: AccessToken, id: Uuid, ids: Fresh)
    requires Inv(db) && Logout(db, a).1.Ok? && id in db.sessions
    ensures Refresh(Logout(db, a).0, db.sessions[id].current, ids).1.Ok? <==>
              id != a.session && Refresh(db, db.sessions[id].current, ids).1.Ok?
  {
    LogoutKeepsInv(db, a);
    RefreshAcceptsExactly(db, db.sessions[id].current, ids);
    RefreshAcceptsExactly(Logout(db, a).0, db.sessions[id].current, ids);
    hide Refresh, OnePerClient, AccessSound;
  }

  /** A login leaves its own session as the client's only one. */
  lemma LoginReplacesTheClient(db: Db, username: string, password: string, client: Uuid, ids: Fresh, id: Uuid)
    requires Inv(db) && FreshIds(db, ids) && Login(db, username, password, client, ids).1.Ok?
    ensures var (db', reply) := (Step(db, DoLogin(username, password, client, ids)), Login(db, username, password, client, ids).1);
            id in db'.sessions && OfClient(db'.sessions[id], reply.value.refresh.admin, client) <==> id == reply.value.refresh.session
  {
    hide Inv, NewAccess;
  }

  /** A login is granted exactly to the account of that name with that password. */
  lemma LoginGrantsExactly(db: Db, username: string, password: string, client: Uuid, ids: Fresh)
    requires Inv(db)
    ensures Login(db, username, password, client, ids).1.Ok? <==>
              exists admin :: Named(db, admin, username) && db.admins[admin].password == password
  {
    hide OnePerClient, RefreshSound, AccessSound, CreateSession, RevokedFor;
  }

  /** What a granted pair is good for: the access token lets its bearer in for fifteen minutes, from the
      whole second it was issued in, and the refresh token works until its session expires. */
  ghost predicate Works(db: Db, pair: Pair, expiresAt: int) {
    && pair.refresh.session == pair.access.session && pair.refresh.expiresAt == expiresAt
    && (forall later :: db.now <= later ==>
          (Authenticate(db.(now := later), pair.access) ==
             if later < WholeSecond(db.now) + 15 * 60 * SECOND then Ok(pair.refresh.session) else Err(Unauthenticated)))
    && (forall later, ids :: db.now <= later ==> (Refresh(db.(now := later), pair.refresh, ids).1.Ok? <==> later < expiresAt))
  }

  lemma IssuedPairWorks(db: Db, pair: Pair)
    requires Inv(db) && pair.access in db.accessTokens && pair.refresh in db.refreshTokens
    requires pair.access.session == pair.refresh.session && pair.access.issuedAt == WholeSecond(db.now)
    requires pair.refresh.session in db.sessions && db.sessions[pair.refresh.session].current == pair.refresh
    requires db.sessions[pair.refresh.session].revokedAt == None
    requires pair.access.admin in db.admins && pair.access.epoch == db.admins[pair.access.admin].epoch
    ensures Works(db, pair, pair.refresh.expiresAt)
  {
    hide OnePerClient, OneAdmin;
    forall later | db.now <= later
      ensures Authenticate(db.(now := later), pair.access) ==
              if later < WholeSecond(db.now) + 15 * 60 * SECOND then Ok(pair.refresh.session) else Err(Unauthenticated)
    {
      assert pair.access.expiresAt == pair.access.issuedAt + ACCESS_LIFETIME;
    }
    forall later, ids | db.now <= later ensures Refresh(db.(now := later), pair.refresh, ids).1.Ok? <==> later < pair.refresh.expiresAt {
      LaterIsSound(db, later);
      RefreshAcceptsExactly(db.(now := later), pair.refresh, ids);
    }
  }

  lemma LaterIsSound(db: Db, later: int)
    requires Inv(db) && db.now <= later
    ensures Step(db, DoTick(later - db.now)) == db.(now := later) && Inv(db.(now := later))
  {
    hide OnePerClient, OneAdmin;
  }

  /** The pair a login hands out works, for a session of thirty days. */
  lemma LoginLetsIn(db: Db, username: string, password: string, client: Uuid, ids: Fresh)
    requires Inv(db) && FreshIds(db, ids) && Login(db, username, password, client, ids).1.Ok?
    ensures var (db', reply) := (Step(db, DoLogin(username, password, client, ids)), Login(db, username, password, client, ids).1);
            && Works(db', reply.value, WholeSecond(db.now + 30 * 24 * 3_600 * SECOND))
            && reply.value.refresh.session == ids.session && ids.session in db'.sessions
            && db'.sessions[ids.session].client == client && Named(db, db'.sessions[ids.session].admin, username)
            && db'.admins == db.admins
  {
    hide Inv, Works;
    var (db', reply) := Login(db, username, password, client, ids);
    LoginKeepsInv(db, username, password, client, ids);
    IssuedPairWorks(db', reply.value);
  }

  /** A login ends the sessions its client had, at that instant, and leaves those of every other client
      going on exactly as before. */
  lemma LoginLeavesOtherClients(db: Db, username: string, password: string, client: Uuid, ids: Fresh, id: Uuid, again: Fresh)
    requires Inv(db) && FreshIds(db, ids) && Login(db, username, password, client, ids).1.Ok? && id in db.sessions
    ensures var db' := Step(db, DoLogin(username, password, client, ids));
            var s := db.sessions[id];
            && id in db'.sessions
            && (db'.sessions[id] == if s.client == client && s.revokedAt == None then s.(revokedAt := Some(db.now)) else s)
            && (Refresh(db', s.current, again).1.Ok? <==> s.client != client && Refresh(db, s.current, again).1.Ok?)
  {
    hide Inv, Refresh, RevokedFor;
    var (db', reply) := Login(db, username, password, client, ids);
    LoginKeepsInv(db, username, password, client, ids);
    LoginRevokes(db, username, password, client, ids, id);
    RefreshAcceptsExactly(db, db.sessions[id].current, again);
    RefreshAcceptsExactly(db', db.sessions[id].current, again);
    CurrentIsKnown(db, id);
  }

  lemma LoginRevokes(db: Db, username: string, password: string, client: Uuid, ids: Fresh, id: Uuid)
    requires Inv(db) && FreshIds(db, ids) && Login(db, username, password, client, ids).1.Ok? && id in db.sessions
    ensures var db' := Login(db, username, password, client, ids).0;
            var s := db.sessions[id];
            && id in db'.sessions && db'.now == db.now && db.refreshTokens <= db'.refreshTokens
            && (db'.sessions[id] == if s.client == client && s.revokedAt == None then s.(revokedAt := Some(db.now)) else s)
  {
    hide RefreshSound, OnePerClient, NewRefresh, NewAccess;
    assert db.sessions[id].admin in db.admins;
  }

  lemma CurrentIsKnown(db: Db, id: Uuid)
    requires Inv(db) && id in db.sessions
    ensures db.sessions[id].current in db.refreshTokens && db.sessions[id].current.session == id
  {
    hide AccessSound, OnePerClient, OneAdmin;
  }

  /** The first administrator is made exactly once, by an authorized and valid request; every other
      request changes nothing. */
  lemma BootstrapsExactly(db: Db, authorized: bool, valid: bool, username: string, password: string, client: Uuid, admin: Uuid, ids: Fresh)
    ensures var (db', reply) := (Step(db, DoBootstrap(authorized, valid, username, password, client, admin, ids)), Bootstrap(db, authorized, valid, username, password, client, admin, ids).1);
            && (reply.Ok? <==> db.admins == map[] && authorized && valid)
            && (reply.Err? ==> db' == db && reply.error == if db.admins != map[] then BootstrapCompleted else BootstrapRefused)
            && (reply.Ok? ==> Bootstrap(db', authorized, valid, username, password, client, admin, ids) == (db', Err(BootstrapCompleted)))
  {
  }

  /** So does the pair of the first administrator. */
  lemma BootstrapLetsIn(db: Db, username: string, password: string, client: Uuid, admin: Uuid, ids: Fresh)
    requires Inv(db) && FreshIds(db, ids)
    ensures Bootstrap(db, true, true, username, password, client, admin, ids).1.Ok? <==> db.admins == map[]
    ensures db.admins == map[] ==>
              var (db', reply) := Bootstrap(db, true, true, username, password, client, admin, ids);
              && Works(db', reply.value, WholeSecond(db.now + 30 * 24 * 3_600 * SECOND))
              && db'.admins == map[admin := Admin(username, password, 0)]
              && ids.session in db'.sessions && db'.sessions[ids.session].client == client
              && forall again, other :: Login(db', username, password, again, other).1.Ok?
  {
    hide Inv, Works;
    if db.admins == map[] {
      BootstrapKeepsInv(db, DoBootstrap(true, true, username, password, client, admin, ids));
      var (db', reply) := Bootstrap(db, true, true, username, password, client, admin, ids);
      IssuedPairWorks(db', reply.value);
      forall again, other ensures Login(db', username, password, again, other).1.Ok? {
        assert Named(db', admin, username);
        LoginGrantsExactly(db', username, password, again, other);
      }
    }
  }

  /** And a rotated pair works for the same session until the same instant. */
  lemma RefreshLetsIn(db: Db, t: RefreshToken, ids: Fresh)
    requires Inv(db) && FreshIds(db, ids) && Refresh(db, t, ids).1.Ok?
    ensures var (db', reply) := (Step(db, DoRefresh(t, ids)), Refresh(db, t, ids).1);
            && Works(db', reply.value, t.expiresAt) && reply.value.refresh.session == t.session && db'.admins == db.admins
            && db'.sessions == db.sessions[t.session := db.sessions[t.session].(current := reply.value.refresh)]
  {
    hide Inv, Works;
    var (db', reply) := Refresh(db, t, ids);
    RefreshKeepsInv(db, t, ids);
    RefreshAcceptsExactly(db, t, ids);
    IssuedPairWorks(db', reply.value);
  }

  /** A logout closes the bearer's session, moves the epoch on and changes nothing else; whoever may
      not come in may not log out either. */
  lemma LogoutClosesExactly(db: Db, a: AccessToken)
    requires Inv(db)
    ensures var (db', reply) := (Step(db, DoLogout(a)), Logout(db, a).1);
            && (reply.Ok? <==> Authenticate(db, a).Ok?)
            && (reply.Err? ==> db' == db && reply.error == Authenticate(db, a).error)
            && (reply.Ok? ==>
                  && a.session in db.sessions && reply.value == db.sessions[a.session].client
                  && db'.sessions == db.sessions[a.session := db.sessions[a.session].(revokedAt := Some(db.now))]
                  && a.admin in db.admins
                  && db'.admins == db.admins[a.admin := db.admins[a.admin].(epoch := db.admins[a.admin].epoch + 1)]
                  && db'.refreshTokens == db.refreshTokens && db'.accessTokens == db.accessTokens)
  {
  }

  lemma LoginOf(db: Db, admin: Uuid, username: string, password: string, client: Uuid, ids: Fresh)
    requires Inv(db) && Named(db, admin, username)
    ensures Login(db, username, password, client, ids) ==
              if db.admins[admin].password != password then (db, Err(InvalidCredentials))
              else
                var (db', pair) := CreateSession(db.(sessions := RevokedFor(db.sessions, admin, client, db.now)), admin, client, ids);
                (db', Ok(pair))
  {
    hide Inv, CreateSession, RevokedFor;
    OneNamed(db, admin, username);
  }

  // ---------------------------------------------------------------- the service over its tables

  class AuthService {
    var admins: map<Uuid, Admin>
    var sessions: map<Uuid, Session>
    ghost var refreshTokens: set<RefreshToken>
    ghost var accessTokens: set<AccessToken>

    ghost function Contents(now: int): Db
      reads this
    {
      Db(admins, sessions, refreshTokens, accessTokens, now)
    }

    ghost predicate Sound(now: int)
      reads this
    {
      Inv(Contents(now))
    }

    constructor ()
      ensures Contents(0) == EMPTY && Sound(0)
    {
      admins, sessions, refreshTokens, accessTokens := map[], map[], {}, {};
      new;
      EmptyIsSound();
    }

    method OpenSession(now: int, admin: Uuid, client: Uuid, ids: Fresh) returns (pair: Pair)
      requires admin in admins
      modifies this`sessions, this`refreshTokens, this`accessTokens
      ensures (Contents(now), pair) == CreateSession(old(Contents(now)), admin, client, ids)
    {
      var expiresAt := WholeSecond(now + REFRESH_LIFETIME);
      var refresh := RefreshToken(admin, ids.session, WholeSecond(now), WholeSecond(expiresAt), ids.refresh);
      sessions := sessions[ids.session := Session(admin, client, refresh, expiresAt, None)];
      var issuedAt := WholeSecond(now);
      var access := AccessToken(admin, ids.session, admins[admin].epoch, issuedAt, issuedAt + ACCESS_LIFETIME, ids.access);
      refreshTokens := refreshTokens + {refresh};
      accessTokens := accessTokens + {access};
      pair := Pair(access, refresh);
    }

    method BootstrapAdmin(now: int, authorized: bool, valid: bool, username: string, password: string, client: Uuid, admin: Uuid, ids: Fresh)
      returns (reply: Result<Pair, Problem>)
      requires Sound(now) && FreshIds(Contents(now), ids)
      modifies this
      ensures Sound(now) && (Contents(now), reply) == Bootstrap(old(Contents(now)), authorized, valid, username, password, client, admin, ids)
    {
      hide Inv, CreateSession;
      BootstrapKeepsInv(Contents(now), DoBootstrap(authorized, valid, username, password, client, admin, ids));
      if admins != map[] {
        return Err(BootstrapCompleted);
      }
      if !authorized || !valid {
        return Err(BootstrapRefused);
      }
      admins := map[admin := Admin(username, password, 0)];
      var pair := OpenSession(now, admin, client, ids);
      return Ok(pair);
    }

    /** Revoke every unrevoked session of the client. */
    method RevokeClient(now: int, admin: Uuid, client: Uuid)
      modifies this`sessions
      ensures sessions == RevokedFor(old(sessions), admin, client, now)
    {
      var rest := set id | id in sessions && OfClient(sessions[id], admin, client);
      while rest != {}
        invariant sessions.Keys == old(sessions.Keys) && rest <= sessions.Keys
        invariant forall id :: id in sessions && id in rest ==> sessions[id] == old(sessions)[id] && OfClient(sessions[id], admin, client)
        invariant forall id :: id in sessions && id !in rest ==> sessions[id] == RevokedFor(old(sessions), admin, client, now)[id]
        decreases |rest|
      {
        var id :| id in rest;
        sessions := sessions[id := sessions[id].(revokedAt := Some(now))];
        rest := rest - {id};
      }
    }

    method LogIn(now: int, username: string, password: string, client: Uuid, ids: Fresh) returns (reply: Result<Pair, Problem>)
      requires Sound(now) && FreshIds(Contents(now), ids)
      modifies this`sessions, this`refreshTokens, this`accessTokens
      ensures Sound(now) && (Contents(now), reply) == Login(old(Contents(now)), username, password, client, ids)
    {
      hide Inv, CreateSession, RevokedFor;
      LoginKeepsInv(Contents(now), username, password, client, ids);
      if admin :| admin in admins && admins[admin].username == username {
        LoginOf(Contents(now), admin, username, password, client, ids);
        if admins[admin].password != password {
          return Err(InvalidCredentials);
        }
        RevokeClient(now, admin, client);
        var pair := OpenSession(now, admin, client, ids);
        return Ok(pair);
      } else {
        return Err(InvalidCredentials);
      }
    }

    /** `authentic` says whether the signature is the service's own. */
    method RefreshSession(now: int, t: RefreshToken, authentic: bool, ids: Fresh) returns (reply: Result<Pair, Problem>)
      requires Sound(now) && (authentic <==> t in refreshTokens)
      modifies this`sessions, this`refreshTokens, this`accessTokens
      ensures Sound(now) && (Contents(now), reply) == Refresh(old(Contents(now)), t, ids)
    {
      hide Inv;
      RefreshKeepsInv(Contents(now), t, ids);
      if !authentic || t.issuedAt > now || t.expiresAt <= now || t.expiresAt <= t.issuedAt {
        return Err(RefreshInvalid);
      }
      if t.session !in sessions || sessions[t.session].admin != t.admin {
        return Err(RefreshInvalid);
      }
      var s := sessions[t.session];
      if t.admin !in admins || s.revokedAt.Some? || s.expiresAt <= now || s.expiresAt != t.expiresAt {
        return Err(RefreshInvalid);
      }
      if s.current != t {
        sessions := sessions[t.session := s.(revokedAt := Some(now))];
        return Err(RefreshReused);
      }
      var rotated := RefreshToken(t.admin, t.session, WholeSecond(now), WholeSecond(s.expiresAt), ids.refresh);
      sessions := sessions[t.session := s.(current := rotated)];
      var issuedAt := WholeSecond(now);
      var access := AccessToken(t.admin, t.session, admins[t.admin].epoch, issuedAt, issuedAt + ACCESS_LIFETIME, ids.access);
      refreshTokens := refreshTokens + {rotated};
      accessTokens := accessTokens + {access};
      return Ok(Pair(access, rotated));
    }

    /** A token lets its bearer in exactly while it has not expired, its session is not revoked and
        nobody logged out since; the session is then the only one its client has. */
    method AuthenticateAccess(now: int, x: AccessToken, authentic: bool) returns (reply: Result<Uuid, Problem>)
      requires Sound(now) && (authentic <==> x in accessTokens)
      ensures reply == Authenticate(Contents(now), x)
      ensures reply.Ok? <==>
                && authentic && x.expiresAt > now
                && x.session in sessions && sessions[x.session].revokedAt == None
                && x.admin in admins && x.epoch == admins[x.admin].epoch
      ensures reply.Ok? ==>
                && reply.value == x.session
                && forall id :: id in sessions && OfClient(sessions[id], x.admin, sessions[x.session].client) ==> id == x.session
    {
      hide RefreshSound, OneAdmin;
      AuthenticatesExactly(Contents(now), x);
      if Authenticate(Contents(now), x).Ok? {
        forall id | id in sessions && OfClient(sessions[id], x.admin, sessions[x.session].client) ensures id == x.session {
          assert SameClient(sessions[id], sessions[x.session]);
        }
      }
      if !authentic || x.issuedAt > now || x.expiresAt <= now || x.expiresAt - x.issuedAt != ACCESS_LIFETIME {
        return Err(Unauthenticated);
      }
      if x.session !in sessions || x.admin !in admins || sessions[x.session].admin != x.admin || sessions[x.session].revokedAt.Some? {
        return Err(SessionRevoked);
      }
      if x.epoch != admins[x.admin].epoch {
        return Err(Unauthenticated);
      }
      return Ok(x.session);
    }

    method LogOut(now: int, x: AccessToken, authentic: bool) returns (reply: Result<Uuid, Problem>)
      requires Sound(now) && (authentic <==> x in accessTokens)
      modifies this`sessions, this`admins
      ensures Sound(now) && (Contents(now), reply) == Logout(old(Contents(now)), x)
    {
      hide Inv;
      LogoutKeepsInv(Contents(now), x);
      reply := AuthenticateAccess(now, x, authentic);
      if reply.Err? {
        return;
      }
      var s := sessions[x.session];
      sessions := sessions[x.session := s.(revokedAt := Some(now))];
      admins := admins[x.admin := admins[x.admin].(epoch := admins[x.admin].epoch + 1)];
      return Ok(s.client);
    }
  }
}
