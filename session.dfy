/** `getSession` with its development bypass (apps/sim/lib/auth/index.ts). The
    environment, the user table behind the lookup and the clock are inputs; the real
    authentication it delegates to is not part of this model. */
module Session {
  import opened Js

  /** NODE_ENV, DISABLE_AUTH, TEST_USER_ID and TEST_ORG_ID. */
  datatype ProcessEnv = ProcessEnv(nodeEnv: Option<string>, disableAuth: Option<string>,
                                   testUserId: Option<string>, testOrgId: Option<string>)

  /** A user row; times are milliseconds since the epoch. */
  datatype User = User(id: string, email: string, name: string, image: Option<string>,
                       emailVerified: bool, createdAt: int, updatedAt: int,
                       stripeCustomerId: Option<string>, isSuperUser: bool)

  datatype Session = Session(id: string, userId: string, token: string, expiresAt: int,
                             createdAt: int, updatedAt: int, ipAddress: string, userAgent: string,
                             activeOrganizationId: Option<string>)

  /** The user table as the lookup meets it: reachable with these rows, or failing. */
  datatype UserStore = StoreUp(users: seq<User>) | StoreDown

  datatype SessionResult =
    | BypassInProduction                      // the thrown "cannot disable auth in production" error
    | Bypass(user: User, session: Session)    // a development session
    | RealAuth                                // delegated to the real `getSession`

  const ONE_YEAR_MS: int := 365 * 24 * 60 * 60 * 1000
  const DEV_USER_ID := "dev-user-123"

  /** The bypass is on only for the exact string "true". */
  predicate AuthDisabled(env: ProcessEnv) {
    env.disableAuth == Some("true")
  }

  predicate IsProduction(env: ProcessEnv) {
    env.nodeEnv == Some("production")
  }

  /** `findFirst({ where: eq(user.id, id) })`: the first row with that id. */
  function FindFirst(users: seq<User>, id: string): (r: Option<User>)
    ensures r.Some? ==> r.value.id == id && r.value in users
    ensures r.Some? ==> exists i :: 0 <= i < |users| && users[i] == r.value &&
                                    forall j :: 0 <= j < i ==> users[j].id != id
    ensures r.None? ==> forall u :: u in users ==> u.id != id
  {
    if users == [] then None
    else if users[0].id == id then Some(users[0])
    else FindFirst(users[1..], id)
  }

  /** The lookup of TEST_USER_ID: `None` when it finds nobody or throws. */
  function LookupTestUser(store: UserStore, id: string): (r: Option<User>)
    ensures r.Some? ==> store.StoreUp? && r.value.id == id && r.value in store.users
    ensures store.StoreDown? ==> r.None?
    ensures store.StoreUp? ==> r == FindFirst(store.users, id)
    ensures store.StoreUp? && (exists u :: u in store.users && u.id == id) ==> r.Some?
  {
    match store
    case StoreUp(users) => FindFirst(users, id)
    case StoreDown => None
  }

  /** The session for a bypass at time `now`. */
  function DevSession(id: string, userId: string, token: string, env: ProcessEnv, now: int): (s: Session)
    ensures s.id == id && s.userId == userId && s.token == token
    ensures s.expiresAt == now + ONE_YEAR_MS && s.createdAt == now && s.updatedAt == now
    ensures s.activeOrganizationId == OrNull(env.testOrgId)
  {
    Session(id, userId, token, now + ONE_YEAR_MS, now, now, "127.0.0.1", "dev-mode", OrNull(env.testOrgId))
  }

  /** The hard-coded fallback user. */
  function DevUser(now: int): (u: User)
    ensures u.id == DEV_USER_ID && u.email == "dev@example.com" && u.name == "Dev User"
    ensures u.emailVerified && !u.isSuperUser && u.image.None? && u.stripeCustomerId.None?
    ensures u.createdAt == now && u.updatedAt == now
  {
    User(DEV_USER_ID, "dev@example.com", "Dev User", None, true, now, now, None, false)
  }

  /** `getSession()` at time `now`. */
  function GetSession(env: ProcessEnv, store: UserStore, now: int): (r: SessionResult)
    ensures IsProduction(env) && AuthDisabled(env) ==> r == BypassInProduction
    ensures !AuthDisabled(env) <==> r == RealAuth
    ensures r.Bypass? ==> r.session.userId == r.user.id && r.session.expiresAt == now + ONE_YEAR_MS
    ensures r.Bypass? ==> r.session.activeOrganizationId == OrNull(env.testOrgId)
    ensures r.Bypass? && r.user.id != DEV_USER_ID ==>
              Truthy(env.testUserId) && r.user.id == env.testUserId.value &&
              r.session.id == "dev-session" && r.session.token == "dev-token"
  {
    if IsProduction(env) && AuthDisabled(env) then BypassInProduction
    else if AuthDisabled(env) then
      var found := if Truthy(env.testUserId) then LookupTestUser(store, env.testUserId.value) else None;
      if found.Some? then
        Bypass(found.value, DevSession("dev-session", found.value.id, "dev-token", env, now))
      else
        Bypass(DevUser(now), DevSession("dev-session-123", DEV_USER_ID, "dev-token-123", env, now))
    else
      RealAuth
  }

  /** With the bypass on outside production, a TEST_USER_ID found in the table gives a
      session for that user, and any other case (no id, not found, the lookup failing)
      gives the hard-coded dev-user-123 session. */
  lemma BypassChoosesUser(env: ProcessEnv, store: UserStore, now: int)
    requires AuthDisabled(env) && !IsProduction(env)
    ensures var r := GetSession(env, store, now);
            var found := if Truthy(env.testUserId) then LookupTestUser(store, env.testUserId.value) else None;
            r.Bypass? &&
            (found.Some? ==> r.user == found.value && r.session.id == "dev-session" &&
                             r.session.token == "dev-token" && r.session.userId == env.testUserId.value) &&
            (found.None? ==> r.user == DevUser(now) && r.session.id == "dev-session-123" &&
                             r.session.token == "dev-token-123" && r.session.userId == DEV_USER_ID)
  {
  }

  /** The table decides only through the looked-up row: a failing store behaves like a
      store without that user. */
  lemma {:induction false} StoreDownLikeNotFound(env: ProcessEnv, users: seq<User>, now: int)
    requires Truthy(env.testUserId)
    requires forall u :: u in users ==> u.id != env.testUserId.value
    ensures GetSession(env, StoreDown, now) == GetSession(env, StoreUp(users), now)
  {
    NotFoundIsNone(users, env.testUserId.value);
  }

  lemma {:induction false} NotFoundIsNone(users: seq<User>, id: string)
    requires forall u :: u in users ==> u.id != id
    ensures FindFirst(users, id) == None
  {
    if users != [] {
      assert users[0] in users;
      forall u | u in users[1..] ensures u.id != id { assert u in users; }
      NotFoundIsNone(users[1..], id);
    }
  }
}
