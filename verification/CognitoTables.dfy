/** The Cognito tables, the events that change them, and what each event writes.

    Every transaction of the service either commits a list of events or rolls back.
    `Effect` gives the rows an event inserts, updates or deletes; `Replay` gives the tables
    after a whole history. Times are milliseconds; token claims are in seconds. */
module CognitoTables {
  import opened Options

  /** Generated identifiers: pool and client ids, subs, token and session values. */
  type Id = nat

  /** A username is the chosen login, or the generated sub when the pool signs users in by attribute. */
  datatype Username = Login(login: string) | Generated(sub: Id)

  datatype UserKey = UserKey(pool: Id, name: Username)

  datatype Status = UNCONFIRMED | CONFIRMED | FORCE_CHANGE_PASSWORD | RESET_REQUIRED

  /** Names of the attributes with a meaning of their own. */
  const EMAIL := "email"
  const EMAIL_VERIFIED := "email_verified"
  const PHONE := "phone_number"
  const PHONE_VERIFIED := "phone_number_verified"
  const SUB := "sub"

  datatype Pool = Pool(
    usernameAttributes: seq<string>,
    autoVerified: seq<string>,
    adminCreateOnly: bool,
    deletionProtected: bool)
  {
    predicate EmailIsUsername() { EMAIL in usernameAttributes }
  }

  datatype OAuthFlow = CodeFlow | ImplicitFlow | CredentialsFlow

  /** The authentication flows a client accepts: sign-in by password, by an administrator, by refresh token. */
  datatype AuthFlow = UserPasswordAuth | AdminPasswordAuth | RefreshTokenAuth

  datatype PkceMethod = S256 | Plain

  datatype ChallengeName = NewPasswordRequired | OtherChallenge

  datatype VerifyKind = SignUpCode | ResetCode

  datatype Client = Client(
    id: Id,
    pool: Id,
    secret: Option<string>,
    oauthEnabled: bool,
    oauthFlows: set<OAuthFlow>,
    scopes: seq<string>,
    callbacks: seq<string>,
    defaultRedirect: Option<string>,
    explicitFlows: set<AuthFlow>,
    hideUsers: bool,
    accessTtl: int,
    idTtl: int,
    refreshTtl: int,
    sessionMinutes: int)
  {
    /** A client without explicit flows accepts them all. */
    predicate AllowsFlow(f: AuthFlow) {
      explicitFlows == {} || f in explicitFlows
    }
  }

  datatype User = User(
    key: UserKey,
    sub: Id,
    attributes: map<string, string>,
    password: Option<string>,
    status: Status,
    enabled: bool,
    tokensValidAfter: int)
  {
    function Attribute(name: string): Option<string> {
      if name in attributes then Some(attributes[name]) else None
    }
  }

  datatype CodeRow = CodeRow(
    owner: UserKey,
    client: Id,
    redirectUri: string,
    scope: string,
    challenge: Option<string>,
    challengeMethod: Option<PkceMethod>,
    nonce: Option<string>,
    authTime: int,
    expiresAt: int,
    used: bool)

  datatype SessionRow = SessionRow(owner: UserKey, authTime: int, expiresAt: int)

  datatype OriginRow = OriginRow(owner: UserKey, client: Id, revoked: bool)

  datatype RefreshRow = RefreshRow(
    owner: UserKey,
    client: Id,
    origin: Id,
    scope: string,
    authTime: int,
    expiresAt: int,
    revoked: bool)

  datatype ChallengeRow = ChallengeRow(owner: UserKey, client: Id, name: ChallengeName, expiresAt: int)

  datatype VerifyKey = VerifyKey(owner: UserKey, kind: VerifyKind)

  datatype VerifyRow = VerifyRow(code: string, expiresAt: int)

  datatype Tables = Tables(
    pools: map<Id, Pool>,
    clients: map<Id, Client>,
    users: map<UserKey, User>,
    codes: map<Id, CodeRow>,
    sessions: map<Id, SessionRow>,
    origins: map<Id, OriginRow>,
    refresh: map<Id, RefreshRow>,
    challenges: map<Id, ChallengeRow>,
    verify: map<VerifyKey, VerifyRow>)

  const EMPTY_TABLES := Tables(map[], map[], map[], map[], map[], map[], map[], map[], map[])

  /** Signed tokens. A token is known to the server only if it was minted: signatures cannot be forged. */
  datatype Token =
    | Access(jti: Id, sub: Id, owner: UserKey, client: Id, origin: Id, scope: string,
             authTime: int, iat: int, exp: int)
    | Identity(jti: Id, sub: Id, owner: UserKey, client: Id, origin: Id, nonce: Option<string>,
               authTime: int, iat: int, exp: int)
    | ClientAccess(jti: Id, pool: Id, client: Id, scope: string, iat: int, exp: int)

  /** How a grant family came about. */
  datatype Source = FromPassword | FromChallenge(session: Id) | FromCode(code: Id) | FromImplicit

  datatype RefreshGrant = RefreshGrant(token: Id, expiresAt: int)

  /** What the hosted UI approved when it validated an authorize request. */
  datatype Approval = Approval(
    client: Client,
    redirectUri: string,
    scopes: seq<string>,
    implicit: bool,
    challenge: Option<string>,
    challengeMethod: Option<PkceMethod>,
    nonce: Option<string>)

  /** Events carry the clock where a lifetime is counted from them. */
  datatype Event =
    | PoolSaved(pool: Id, settings: Pool)
    | PoolDeleted(pool: Id)
    | ClientSaved(client: Client)
    | ClientDeleted(clientId: Id)
    | UserSaved(user: User)
    | UserDeleted(owner: UserKey)
    | UserDisabled(owner: UserKey)
    | SignedOut(owner: UserKey, at: int)
    | Approved(approval: Approval)
    | FamilyStarted(origin: Id, owner: UserKey, clientId: Id, scope: string, authTime: int,
                    grant: Option<RefreshGrant>, source: Source)
    | Minted(token: Token)
    | RefreshRevoked(id: Id)
    | SessionStarted(id: Id, at: int, session: SessionRow)
    | SessionEnded(id: Id)
    | CodeIssued(id: Id, at: int, code: CodeRow)
    | CodeTaken(id: Id)
    | ChallengeIssued(id: Id, challenge: ChallengeRow)
    | ChallengeTaken(id: Id)
    | VerifySet(key: VerifyKey, row: VerifyRow)
    | VerifyUsed(key: VerifyKey)

  // What an event writes to each table.

  function PoolsAfter(pools: map<Id, Pool>, e: Event): map<Id, Pool> {
    match e
    case PoolSaved(p, settings) => pools[p := settings]
    case PoolDeleted(p) => pools - {p}
    case _ => pools
  }

  function ClientsAfter(clients: map<Id, Client>, e: Event): map<Id, Client> {
    match e
    case ClientSaved(c) => clients[c.id := c]
    case ClientDeleted(c) => clients - {c}
    case PoolDeleted(p) => map i | i in clients && clients[i].pool != p :: clients[i]
    case _ => clients
  }

  function UsersAfter(users: map<UserKey, User>, e: Event): map<UserKey, User> {
    match e
    case UserSaved(u) => users[u.key := u]
    case UserDisabled(k) => if k in users then users[k := users[k].(enabled := false)] else users
    case SignedOut(k, at) => if k in users then users[k := users[k].(tokensValidAfter := at)] else users
    case UserDeleted(k) => users - {k}
    case PoolDeleted(p) => map k | k in users && k.pool != p :: users[k]
    case _ => users
  }

  function CodesAfter(codes: map<Id, CodeRow>, e: Event): map<Id, CodeRow> {
    match e
    case CodeIssued(i, _, row) => codes[i := row]
    case CodeTaken(i) => if i in codes then codes[i := codes[i].(used := true)] else codes
    case UserDeleted(k) => map i | i in codes && codes[i].owner != k :: codes[i]
    case PoolDeleted(p) => map i | i in codes && codes[i].owner.pool != p :: codes[i]
    case _ => codes
  }

  function SessionsAfter(sessions: map<Id, SessionRow>, e: Event): map<Id, SessionRow> {
    match e
    case SessionStarted(i, _, row) => sessions[i := row]
    case SessionEnded(i) => sessions - {i}
    case UserDisabled(k) => map i | i in sessions && sessions[i].owner != k :: sessions[i]
    case SignedOut(k, _) => map i | i in sessions && sessions[i].owner != k :: sessions[i]
    case UserDeleted(k) => map i | i in sessions && sessions[i].owner != k :: sessions[i]
    case PoolDeleted(p) => map i | i in sessions && sessions[i].owner.pool != p :: sessions[i]
    case _ => sessions
  }

  /** Revoking a refresh token also revokes the family it belongs to. */
  function OriginsAfter(origins: map<Id, OriginRow>, refresh: map<Id, RefreshRow>, e: Event): map<Id, OriginRow> {
    match e
    case FamilyStarted(o, k, c, _, _, _, _) => origins[o := OriginRow(k, c, false)]
    case RefreshRevoked(r) =>
      if r in refresh && refresh[r].origin in origins
      then origins[refresh[r].origin := origins[refresh[r].origin].(revoked := true)]
      else origins
    case SignedOut(k, _) =>
      map o | o in origins :: if origins[o].owner == k then origins[o].(revoked := true) else origins[o]
    case UserDeleted(k) => map o | o in origins && origins[o].owner != k :: origins[o]
    case PoolDeleted(p) => map o | o in origins && origins[o].owner.pool != p :: origins[o]
    case _ => origins
  }

  function RefreshAfter(refresh: map<Id, RefreshRow>, e: Event): map<Id, RefreshRow> {
    match e
    case FamilyStarted(o, k, c, scope, authTime, grant, _) =>
      if grant.Some?
      then refresh[grant.value.token := RefreshRow(k, c, o, scope, authTime, grant.value.expiresAt, false)]
      else refresh
    case RefreshRevoked(r) => if r in refresh then refresh[r := refresh[r].(revoked := true)] else refresh
    case ClientDeleted(c) =>
      map r | r in refresh :: if refresh[r].client == c then refresh[r].(revoked := true) else refresh[r]
    case SignedOut(k, _) =>
      map r | r in refresh :: if refresh[r].owner == k then refresh[r].(revoked := true) else refresh[r]
    case UserDeleted(k) => map r | r in refresh && refresh[r].owner != k :: refresh[r]
    case PoolDeleted(p) => map r | r in refresh && refresh[r].owner.pool != p :: refresh[r]
    case _ => refresh
  }

  function ChallengesAfter(challenges: map<Id, ChallengeRow>, e: Event): map<Id, ChallengeRow> {
    match e
    case ChallengeIssued(i, row) => challenges[i := row]
    case ChallengeTaken(i) => challenges - {i}
    case UserDeleted(k) => map i | i in challenges && challenges[i].owner != k :: challenges[i]
    case PoolDeleted(p) => map i | i in challenges && challenges[i].owner.pool != p :: challenges[i]
    case _ => challenges
  }

  function VerifyAfter(verify: map<VerifyKey, VerifyRow>, e: Event): map<VerifyKey, VerifyRow> {
    match e
    case VerifySet(v, row) => verify[v := row]
    case VerifyUsed(v) => verify - {v}
    case UserDeleted(k) => map v | v in verify && v.owner != k :: verify[v]
    case PoolDeleted(p) => map v | v in verify && v.owner.pool != p :: verify[v]
    case _ => verify
  }

  function Effect(db: Tables, e: Event): Tables {
    Tables(PoolsAfter(db.pools, e), ClientsAfter(db.clients, e), UsersAfter(db.users, e),
           CodesAfter(db.codes, e), SessionsAfter(db.sessions, e), OriginsAfter(db.origins, db.refresh, e),
           RefreshAfter(db.refresh, e), ChallengesAfter(db.challenges, e), VerifyAfter(db.verify, e))
  }

  function EffectAll(db: Tables, es: seq<Event>): Tables
    decreases |es|
  {
    if es == [] then db else EffectAll(Effect(db, es[0]), es[1..])
  }

  /** The tables after a history, oldest event first. */
  function Replay(log: seq<Event>): Tables {
    if log == [] then EMPTY_TABLES else Effect(Replay(log[..|log| - 1]), log[|log| - 1])
  }

  lemma {:induction false} ReplayAppend(log: seq<Event>, es: seq<Event>)
    ensures Replay(log + es) == EffectAll(Replay(log), es)
    decreases |es|
  {
    if es == [] {
      assert log + es == log;
    } else {
      ReplayAppend(log + [es[0]], es[1..]);
      assert log + [es[0]] + es[1..] == log + es;
      assert (log + [es[0]])[..|log|] == log;
    }
  }

  lemma EffectOne(db: Tables, e: Event)
    ensures EffectAll(db, [e]) == Effect(db, e)
  {
    assert EffectAll(Effect(db, e), [e][1..]) == Effect(db, e);
  }

  lemma EffectTwo(db: Tables, e: Event, e': Event)
    ensures EffectAll(db, [e] + [e']) == EffectAll(db, [e, e']) == Effect(Effect(db, e), e')
  {
    assert [e, e'] == [e] + [e'] && [e, e'][1..] == [e'];
    EffectOne(Effect(db, e), e');
  }

  lemma {:induction false} EffectConcat(db: Tables, es: seq<Event>, es': seq<Event>)
    ensures EffectAll(db, es + es') == EffectAll(EffectAll(db, es), es')
    decreases |es|
  {
    if es == [] {
      assert es + es' == es';
    } else {
      assert (es + es')[1..] == es[1..] + es';
      EffectConcat(Effect(db, es[0]), es[1..], es');
    }
  }
}
