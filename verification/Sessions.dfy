/** Administrator sessions: logins, rotating refresh tokens, short-lived access tokens and logout. */
module Sessions {
  import opened Wrappers

  type Uuid = nat

  // Instants are integers counting microseconds.
  const SECOND: int := 1_000_000
  const ACCESS_LIFETIME: int := 15 * 60 * SECOND
  const REFRESH_LIFETIME: int := 30 * 24 * 3_600 * SECOND

  // ---------------------------------------------------------------- rows and tokens

  datatype Admin = Admin(username: string, password: string, epoch: nat)

  /** A token stands for its signed text; its own id makes every issued text different. */
  datatype RefreshToken = RefreshToken(admin: Uuid, session: Uuid, issuedAt: int, expiresAt: int, id: Uuid)
  datatype AccessToken = AccessToken(admin: Uuid, session: Uuid, epoch: nat, issuedAt: int, expiresAt: int, id: Uuid)

  /** `current` is the refresh token whose hash the row keeps. */
  datatype Session = Session(admin: Uuid, client: Uuid, current: RefreshToken, expiresAt: int, revokedAt: Option<int>)

  /** Only tokens the service issued carry a valid signature: those are `refreshTokens` and
      `accessTokens`. */
  datatype Db = Db(admins: map<Uuid, Admin>, sessions: map<Uuid, Session>,
                   refreshTokens: set<RefreshToken>, accessTokens: set<AccessToken>, now: int)

  datatype Pair = Pair(access: AccessToken, refresh: RefreshToken)

  datatype Problem =
    | BootstrapCompleted | BootstrapRefused | InvalidCredentials | RefreshInvalid | RefreshReused | SessionRevoked | Unauthenticated

  /** Ids for what one request creates. */
  datatype Fresh = Fresh(session: Uuid, refresh: Uuid, access: Uuid)

  function WholeSecond(t: int): int {
    t - t % SECOND
  }

  // ---------------------------------------------------------------- issuing

  function NewRefresh(db: Db, admin: Uuid, session: Uuid, expiresAt: int, id: Uuid): RefreshToken {
    RefreshToken(admin, session, WholeSecond(db.now), WholeSecond(expiresAt), id)
  }

  function NewAccess(db: Db, admin: Uuid, session: Uuid, epoch: nat, id: Uuid): AccessToken {
    AccessToken(admin, session, epoch, WholeSecond(db.now), WholeSecond(db.now) + ACCESS_LIFETIME, id)
  }

  function CreateSession(db: Db, admin: Uuid, client: Uuid, ids: Fresh): (Db, Pair)
    requires admin in db.admins
  {
    var expiresAt := WholeSecond(db.now + REFRESH_LIFETIME);
    var refresh := NewRefresh(db, admin, ids.session, expiresAt, ids.refresh);
    var access := NewAccess(db, admin, ids.session, db.admins[admin].epoch, ids.access);
    (db.(sessions := db.sessions[ids.session := Session(admin, client, refresh, expiresAt, None)],
         refreshTokens := db.refreshTokens + {refresh}, accessTokens := db.accessTokens + {access}),
     Pair(access, refresh))
  }

  /** The first administrator; `authorized` and `valid` are the checks on the bootstrap token and
      the form. */
  function Bootstrap(db: Db, authorized: bool, valid: bool, username: string, password: string, client: Uuid, admin: Uuid, ids: Fresh):
    (Db, Result<Pair, Problem>)
  {
    if db.admins != map[] then (db, Err(BootstrapCompleted))
    else if !authorized || !valid then (db, Err(BootstrapRefused))
    else
      var (db', pair) := CreateSession(db.(admins := map[admin := Admin(username, password, 0)]), admin, client, ids);
      (db', Ok(pair))
  }

  predicate OfClient(s: Session, admin: Uuid, client: Uuid) {
    s.admin == admin && s.client == client && s.revokedAt == None
  }

  function RevokedFor(sessions: map<Uuid, Session>, admin: Uuid, client: Uuid, now: int): map<Uuid, Session> {
    map id | id in sessions ::
      if OfClient(sessions[id], admin, client) then sessions[id].(revokedAt := Some(now)) else sessions[id]
  }

  /** Usernames are unique, so there is at most one such account. */
  predicate Named(db: Db, admin: Uuid, username: string) {
    admin in db.admins && db.admins[admin].username == username
  }

  ghost function Login(db: Db, username: string, password: string, client: Uuid, ids: Fresh): (Db, Result<Pair, Problem>) {
    if admin :| Named(db, admin, username) then
      if db.admins[admin].password != password then (db, Err(InvalidCredentials))
      else
        var (db', pair) := CreateSession(db.(sessions := RevokedFor(db.sessions, admin, client, db.now)), admin, client, ids);
        (db', Ok(pair))
    else (db, Err(InvalidCredentials))
  }

  predicate RefreshReadable(db: Db, t: RefreshToken) {
    t in db.refreshTokens && t.issuedAt <= db.now && t.expiresAt > db.now && t.expiresAt > t.issuedAt
  }

  predicate AccessReadable(db: Db, t: AccessToken) {
    t in db.accessTokens && t.issuedAt <= db.now && t.expiresAt > db.now && t.expiresAt - t.issuedAt == ACCESS_LIFETIME
  }

  /** Trade a refresh token for a new pair. A token that is not the session's last one revokes the
      session. */
  function Refresh(db: Db, t: RefreshToken, ids: Fresh): (Db, Result<Pair, Problem>) {
    if !RefreshReadable(db, t) || t.session !in db.sessions || db.sessions[t.session].admin != t.admin then (db, Err(RefreshInvalid))
    else
      var s := db.sessions[t.session];
      if t.admin !in db.admins || s.revokedAt.Some? || s.expiresAt <= db.now || s.expiresAt != t.expiresAt then (db, Err(RefreshInvalid))
      else if s.current != t then
        (db.(sessions := db.sessions[t.session := s.(revokedAt := Some(db.now))]), Err(RefreshReused))
      else
        var rotated := NewRefresh(db, t.admin, t.session, s.expiresAt, ids.refresh);
        var access := NewAccess(db, t.admin, t.session, db.admins[t.admin].epoch, ids.access);
        (db.(sessions := db.sessions[t.session := s.(current := rotated)],
             refreshTokens := db.refreshTokens + {rotated}, accessTokens := db.accessTokens + {access}),
         Ok(Pair(access, rotated)))
  }

  /** Whether an access token lets its bearer in, and why not. */
  function Authenticate(db: Db, t: AccessToken): Result<Uuid, Problem> {
    if !AccessReadable(db, t) then Err(Unauthenticated)
    else if t.session !in db.sessions || t.admin !in db.admins || db.sessions[t.session].admin != t.admin
            || db.sessions[t.session].revokedAt.Some? then Err(SessionRevoked)
    else if t.epoch != db.admins[t.admin].epoch then Err(Unauthenticated)
    else Ok(t.session)
  }

  /** Logging out revokes the session and moves the account's epoch on. */
  function Logout(db: Db, t: AccessToken): (Db, Result<Uuid, Problem>) {
    match Authenticate(db, t)
    case Err(problem) => (db, Err(problem))
    case Ok(session) =>
      var admin := db.admins[t.admin];
      (db.(sessions := db.sessions[session := db.sessions[session].(revokedAt := Some(db.now))],
           admins := db.admins[t.admin := admin.(epoch := admin.epoch + 1)]),
       Ok(db.sessions[session].client))
  }

  // ---------------------------------------------------------------- runs

  datatype Action =
    | DoBootstrap(authorized: bool, valid: bool, username: string, password: string, client: Uuid, admin: Uuid, ids: Fresh)
    | DoLogin(username: string, password: string, client: Uuid, ids: Fresh)
    | DoRefresh(token: RefreshToken, ids: Fresh)
    | DoLogout(access: AccessToken)
    | DoTick(elapsed: int)

  const EMPTY: Db := Db(map[], map[], {}, {}, 0)

  predicate FreshIds(db: Db, ids: Fresh) {
    && ids.session !in db.sessions
    && (forall t :: t in db.refreshTokens ==> t.id != ids.refresh)
    && (forall t :: t in db.accessTokens ==> t.id != ids.access)
  }

  predicate Allowed(db: Db, a: Action) {
    match a
    case DoBootstrap(_, _, _, _, _, _, ids) => FreshIds(db, ids)
    case DoLogin(_, _, _, ids) => FreshIds(db, ids)
    case DoRefresh(_, ids) => FreshIds(db, ids)
    case DoLogout(_) => true
    case DoTick(elapsed) => elapsed >= 0
  }

  ghost function Step(db: Db, a: Action): Db {
    match a
    case DoBootstrap(authorized, valid, username, password, client, admin, ids) =>
      Bootstrap(db, authorized, valid, username, password, client, admin, ids).0
    case DoLogin(username, password, client, ids) => Login(db, username, password, client, ids).0
    case DoRefresh(token, ids) => Refresh(db, token, ids).0
    case DoLogout(access) => Logout(db, access).0
    case DoTick(elapsed) => db.(now := db.now + elapsed)
  }

  ghost predicate AllowedRun(db: Db, actions: seq<Action>)
    decreases |actions|
  {
    actions == [] || (Allowed(db, actions[0]) && AllowedRun(Step(db, actions[0]), actions[1..]))
  }

  ghost function Run(db: Db, actions: seq<Action>): Db
    decreases |actions|
  {
    if actions == [] then db else Run(Step(db, actions[0]), actions[1..])
  }

  // ---------------------------------------------------------------- the invariant

  predicate SameClient(s: Session, t: Session) {
    s.admin == t.admin && s.client == t.client && s.revokedAt == None && t.revokedAt == None
  }

  ghost predicate OnePerClient(sessions: map<Uuid, Session>) {
    forall a, b :: a in sessions && b in sessions && SameClient(sessions[a], sessions[b]) ==> a == b
  }

  predicate RefreshOf(t: RefreshToken, id: Uuid, s: Session, now: int) {
    t.session == id && t.admin == s.admin && t.expiresAt == s.expiresAt && t.issuedAt <= now
  }

  /** Every refresh token ever issued has its session's expiry, and the session's own is one of
      them. */
  ghost predicate RefreshSound(sessions: map<Uuid, Session>, tokens: set<RefreshToken>, now: int) {
    && (forall id :: id in sessions ==>
          sessions[id].current in tokens && sessions[id].current.session == id && WholeSecond(sessions[id].expiresAt) == sessions[id].expiresAt)
    && (forall t :: t in tokens ==> t.session in sessions && RefreshOf(t, t.session, sessions[t.session], now))
  }

  ghost predicate AccessSound(sessions: map<Uuid, Session>, admins: map<Uuid, Admin>, tokens: set<AccessToken>, now: int) {
    && (forall id :: id in sessions ==> sessions[id].admin in admins)
    && (forall t :: t in tokens ==>
          && t.session in sessions && t.admin == sessions[t.session].admin && t.admin in admins
          && t.epoch <= admins[t.admin].epoch && t.issuedAt <= now && t.expiresAt == t.issuedAt + ACCESS_LIFETIME)
  }

  ghost predicate OneAdmin(admins: map<Uuid, Admin>) {
    forall a, b :: a in admins && b in admins ==> a == b
  }

  ghost predicate Inv(db: Db) {
    && OneAdmin(db.admins) && OnePerClient(db.sessions)
    && RefreshSound(db.sessions, db.refreshTokens, db.now) && AccessSound(db.sessions, db.admins, db.accessTokens, db.now)
  }

  lemma CreateKeepsInv(db: Db, admin: Uuid, client: Uuid, ids: Fresh)
    requires Inv(db) && admin in db.admins && ids.session !in db.sessions
    requires forall id :: id in db.sessions ==> !OfClient(db.sessions[id], admin, client)
    ensures Inv(CreateSession(db, admin, client, ids).0)
  {
    var db' := CreateSession(db, admin, client, ids).0;
    forall a, b | a in db'.sessions && b in db'.sessions && SameClient(db'.sessions[a], db'.sessions[b]) ensures a == b {
      assert a in db.sessions ==> !OfClient(db.sessions[a], admin, client);
      assert b in db.sessions ==> !OfClient(db.sessions[b], admin, client);
    }
  }

  /** Changing one session's revocation, or its current token for another of its tokens. */
  lemma SessionKeepsInv(db: Db, id: Uuid, s: Session, tokens: set<RefreshToken>)
    requires Inv(db) && id in db.sessions
    requires s == db.sessions[id].(revokedAt := s.revokedAt, current := s.current) && (s.revokedAt == None ==> db.sessions[id].revokedAt == None)
    requires tokens == db.refreshTokens + {s.current} && RefreshOf(s.current, id, s, db.now)
    ensures Inv(db.(sessions := db.sessions[id := s], refreshTokens := tokens))
  {
    var sessions := db.sessions[id := s];
    forall a, b | a in sessions && b in sessions && SameClient(sessions[a], sessions[b]) ensures a == b {
      assert SameClient(db.sessions[a], db.sessions[b]);
    }
  }

  lemma RevokingKeepsInv(db: Db, admin: Uuid, client: Uuid)
    requires Inv(db)
    ensures Inv(db.(sessions := RevokedFor(db.sessions, admin, client, db.now)))
    ensures var sessions := RevokedFor(db.sessions, admin, client, db.now);
            forall id :: id in sessions ==> !OfClient(sessions[id], admin, client)
  {
    var sessions := RevokedFor(db.sessions, admin, client, db.now);
    forall a, b | a in sessions && b in sessions && SameClient(sessions[a], sessions[b]) ensures a == b {
      assert SameClient(db.sessions[a], db.sessions[b]);
    }
  }

  lemma RefreshKeepsInv(db: Db, t: RefreshToken, ids: Fresh)
    requires Inv(db)
    ensures Inv(Refresh(db, t, ids).0)
  {
    var (db', reply) := Refresh(db, t, ids);
    if reply == Err(RefreshReused) {
      SessionKeepsInv(db, t.session, db'.sessions[t.session], db.refreshTokens + {db.sessions[t.session].current});
      assert db.refreshTokens + {db.sessions[t.session].current} == db.refreshTokens;
    } else if reply.Ok? {
      SessionKeepsInv(db, t.session, db'.sessions[t.session], db'.refreshTokens);
    }
  }

  lemma LogoutKeepsInv(db: Db, t: AccessToken)
    requires Inv(db)
    ensures Inv(Logout(db, t).0)
  {
    var (db', reply) := Logout(db, t);
    if reply.Ok? {
      var revoked := db'.sessions[t.session];
      SessionKeepsInv(db, t.session, revoked, db.refreshTokens + {revoked.current});
      assert db.refreshTokens + {revoked.current} == db.refreshTokens;
    }
  }

  lemma LoginKeepsInv(db: Db, username: string, password: string, client: Uuid, ids: Fresh)
    requires Inv(db) && ids.session !in db.sessions
    ensures Inv(Login(db, username, password, client, ids).0)
  {
    hide Inv, CreateSession;
    if admin :| Named(db, admin, username) && Login(db, username, password, client, ids).0 != db {
      OneNamed(db, admin, username);
      RevokingKeepsInv(db, admin, client);
      CreateKeepsInv(db.(sessions := RevokedFor(db.sessions, admin, client, db.now)), admin, client, ids);
    }
  }

  lemma OneNamed(db: Db, admin: Uuid, username: string)
    requires Inv(db) && Named(db, admin, username)
    ensures forall other :: Named(db, other, username) ==> other == admin
  {
  }

  lemma BootstrapKeepsInv(db: Db, a: Action)
    requires Inv(db) && a.DoBootstrap? && a.ids.session !in db.sessions
    ensures Inv(Step(db, a))
  {
    if db.admins == map[] && a.authorized && a.valid {
      NoAdminNoSession(db);
      CreateKeepsInv(db.(admins := map[a.admin := Admin(a.username, a.password, 0)]), a.admin, a.client, a.ids);
    }
  }

  lemma NoAdminNoSession(db: Db)
    requires Inv(db) && db.admins == map[]
    ensures db.sessions == map[] && db.refreshTokens == {} && db.accessTokens == {}
  {
    assert forall id :: id in db.sessions ==> db.sessions[id].admin in db.admins;
    assert forall t :: t in db.refreshTokens ==> t.session in db.sessions;
  }

  lemma StepKeepsInv(db: Db, a: Action)
    requires Inv(db) && Allowed(db, a)
    ensures Inv(Step(db, a))
  {
    match a
    case DoBootstrap(_, _, _, _, _, _, _) => BootstrapKeepsInv(db, a);
    case DoLogin(username, password, client, ids) => LoginKeepsInv(db, username, password, client, ids);
    case DoRefresh(token, ids) => RefreshKeepsInv(db, token, ids);
    case DoLogout(access) => LogoutKeepsInv(db, access);
    case DoTick(elapsed) =>
  }

  lemma EmptyIsSound()
    ensures Inv(EMPTY)
  {
  }
}
