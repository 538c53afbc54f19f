/** The service operations: what each decides from the tables, and the events it would commit.

    An operation that fails returns `Err`; the transaction it belongs to then commits nothing.
    `next` is the first unused identifier and `now` the clock, read once per transaction. */
module CognitoService {
  import opened Options
  import opened Text
  import opened CognitoTables

  datatype Error =
    | ResourceNotFound | InvalidParameter | InvalidPassword | UsernameExists | AliasExists
    | UserNotFound | UserIsDisabled | BadCredentials | UserNotConfirmed | PasswordResetRequired
    | InvalidSession | InvalidAccessToken | AccessTokenExpired | AccessTokenRevoked | MissingScope
    | InvalidRefreshToken | RefreshTokenRevoked | RefreshTokenExpired | Unauthorized
    | CodeMismatch | ExpiredCode | CannotConfirm | NotPermitted
    | InvalidClient | RedirectMismatch | UnsupportedResponseType | UnauthorizedClient | InvalidScope | InvalidRequest

  /** The outcome of (part of) a transaction. */
  datatype Txn<+T> = Ok(value: T, events: seq<Event>) | Err(error: Error)

  const ADMIN_SCOPE := "aws.cognito.signin.user.admin"
  const OPENID := "openid"
  const SESSION_TTL := 3600_000
  const CODE_TTL := 300_000
  const VERIFY_TTL := 86400_000

  function Seconds(now: nat): nat { now / 1000 }

  // ---- Look-ups ----

  function GetClient(db: Tables, pool: Option<Id>, c: Id): Txn<Client> {
    if c in db.clients && (pool.None? || pool.value == db.clients[c].pool)
    then Ok(db.clients[c], []) else Err(ResourceNotFound)
  }

  function GetUser(db: Tables, k: UserKey): Txn<User> {
    if k in db.users then Ok(db.users[k], []) else Err(UserNotFound)
  }

  // ---- Pools and clients ----

  function DeletePool(db: Tables, p: Id): Txn<()> {
    if p !in db.pools then Err(ResourceNotFound)
    else if db.pools[p].deletionProtected then Err(InvalidParameter)
    else Ok((), [PoolDeleted(p)])
  }

  function DeleteClient(db: Tables, p: Id, c: Id): Txn<()> {
    var t := GetClient(db, Some(p), c);
    if t.Err? then Err(t.error) else Ok((), [ClientDeleted(c)])
  }

  // ---- Users ----

  predicate HasEmail(u: User, email: string) {
    EMAIL in u.attributes && Lower(u.attributes[EMAIL]) == Lower(email)
  }

  predicate EmailTaken(db: Tables, p: Id, email: string, except: Option<Username>) {
    exists k :: k in db.users && k.pool == p && Some(k.name) != except && HasEmail(db.users[k], email)
  }

  datatype NewUser = NewUser(
    login: string,
    attributes: seq<(string, string)>,
    password: Option<string>,
    status: Status)

  /** Later entries win; `sub` is dropped. */
  function CollectAttributes(attrs: seq<(string, string)>): map<string, string> {
    if attrs == [] then map[]
    else
      var (k, v) := attrs[|attrs| - 1];
      var rest := CollectAttributes(attrs[..|attrs| - 1]);
      if k == SUB then rest else rest[k := v]
  }

  /** The attribute the login itself fills in, when the pool signs users in by attribute. */
  function LoginAttribute(settings: Pool, login: string): Option<string> {
    if '@' in login && EMAIL in settings.usernameAttributes then Some(EMAIL)
    else if login != "" && login[0] == '+' && PHONE in settings.usernameAttributes then Some(PHONE)
    else None
  }

  /** `taken` is what the login look-up found: some existing user already answers to this login. */
  function CreateUser(db: Tables, next: Id, p: Id, settings: Pool, req: NewUser, taken: bool): Txn<User> {
    var byAttribute := settings.usernameAttributes != [];
    var filled := LoginAttribute(settings, req.login);
    var given := CollectAttributes(req.attributes);
    var attrs := if byAttribute && filled.Some? then given[filled.value := req.login] else given;
    var key := UserKey(p, if byAttribute then Generated(next) else Login(req.login));
    if byAttribute && filled.None? then Err(InvalidParameter)
    else if !byAttribute && req.login == "" then Err(InvalidParameter)
    else if taken || key in db.users then Err(UsernameExists)
    else if settings.EmailIsUsername() && EMAIL in attrs && EmailTaken(db, p, attrs[EMAIL], None)
    then Err(UsernameExists)
    else
      var u := User(key, next, attrs, req.password, req.status, true, 0);
      Ok(u, [UserSaved(u)])
  }

  predicate Names(attrs: seq<(string, string)>, name: string) {
    exists i :: 0 <= i < |attrs| && attrs[i].0 == name
  }

  /** One attribute assignment: changing an address resets its verified flag unless that is given too. */
  function SetAttribute(u: User, k: string, v: string, keepEmail: bool, keepPhone: bool): User {
    var a1 := if k == EMAIL && u.Attribute(EMAIL) != Some(v) && !keepEmail
              then u.attributes[EMAIL_VERIFIED := "false"] else u.attributes;
    var a2 := if k == PHONE && u.Attribute(PHONE) != Some(v) && !keepPhone
              then a1[PHONE_VERIFIED := "false"] else a1;
    u.(attributes := a2[k := v])
  }

  /** The loop of `update_attributes`, before the row is saved. */
  function AssignAll(db: Tables, settings: Pool, u: User, attrs: seq<(string, string)>,
                     keepEmail: bool, keepPhone: bool): Txn<User>
    decreases |attrs|
  {
    if attrs == [] then Ok(u, [])
    else
      var (k, v) := attrs[0];
      if k == SUB then Err(InvalidParameter)
      else if k == EMAIL && settings.EmailIsUsername() && EmailTaken(db, u.key.pool, v, Some(u.key.name))
      then Err(AliasExists)
      else AssignAll(db, settings, SetAttribute(u, k, v, keepEmail, keepPhone), attrs[1..], keepEmail, keepPhone)
  }

  function UpdateAttributes(db: Tables, settings: Pool, u: User, attrs: seq<(string, string)>): Txn<User> {
    var t := AssignAll(db, settings, u, attrs, Names(attrs, EMAIL_VERIFIED), Names(attrs, PHONE_VERIFIED));
    if t.Err? then t else Ok(t.value, [UserSaved(t.value)])
  }

  /** `conforms` is the verdict of the pool's password policy on `pw`. */
  function SetPassword(u: User, pw: string, permanent: bool, conforms: bool): Txn<User> {
    if !conforms then Err(InvalidPassword)
    else
      var u' := u.(password := Some(pw), status := if permanent then CONFIRMED else FORCE_CHANGE_PASSWORD);
      Ok(u', [UserSaved(u')])
  }

  function ConfirmUser(settings: Pool, u: User): Txn<User> {
    if u.status != UNCONFIRMED then Err(CannotConfirm)
    else
      var verified := EMAIL in settings.autoVerified && EMAIL in u.attributes;
      var u' := u.(status := CONFIRMED,
                   attributes := if verified then u.attributes[EMAIL_VERIFIED := "true"] else u.attributes);
      Ok(u', [UserSaved(u')])
  }

  // ---- Authentication ----

  datatype AuthOutcome = SignedInAs(user: User) | MustChangePassword(user: User)

  function Authenticate(db: Tables, client: Client, k: UserKey, password: string): Txn<AuthOutcome> {
    if k !in db.users then Err(if client.hideUsers then BadCredentials else UserNotFound)
    else
      var u := db.users[k];
      if !u.enabled then Err(UserIsDisabled)
      else if u.password != Some(password) then Err(BadCredentials)
      else match u.status
        case UNCONFIRMED => Err(UserNotConfirmed)
        case RESET_REQUIRED => Err(PasswordResetRequired)
        case FORCE_CHANGE_PASSWORD => Ok(MustChangePassword(u), [])
        case CONFIRMED => Ok(SignedInAs(u), [])
  }

  function CreateChallenge(next: Id, now: nat, client: Client, u: User): Txn<Id> {
    var row := ChallengeRow(UserKey(client.pool, u.key.name), client.id, NewPasswordRequired,
                            now + client.sessionMinutes * 60_000);
    Ok(next, [ChallengeIssued(next, row)])
  }

  /** Consumes a challenge session and returns the user it was issued for. */
  function TakeChallenge(db: Tables, now: nat, client: Client, session: Id, name: ChallengeName): Txn<User> {
    if session !in db.challenges then Err(InvalidSession)
    else
      var row := db.challenges[session];
      if row.client != client.id || row.expiresAt < now then Err(InvalidSession)
      else if row.name != name then Err(InvalidParameter)
      else
        var k := UserKey(client.pool, row.owner.name);
        if k !in db.users then Err(InvalidSession)
        else Ok(db.users[k], [ChallengeTaken(session)])
  }

  // ---- Tokens ----

  datatype TokenSet = TokenSet(access: Token, identity: Option<Token>, refresh: Option<Id>, expiresIn: int)

  /** A new family, with or without a refresh token, or one more access token of an existing family. */
  datatype Lineage = NewFamily(refresh: bool, source: Source) | SameFamily(origin: Id)

  datatype IssueOpts = IssueOpts(
    scopes: seq<string>,
    nonce: Option<string>,
    authTime: int,
    identity: bool,
    lineage: Lineage)

  /** Identifiers drawn by one issue: origin, access token, identity token, refresh token. */
  function IssueTokens(next: Id, now: nat, client: Client, u: User, opts: IssueOpts): (t: Txn<TokenSet>)
    ensures t.Ok?
  {
    var origin := if opts.lineage.SameFamily? then opts.lineage.origin else next;
    var scope := Join(opts.scopes);
    var iat := Seconds(now);
    var access := Access(next + 1, u.sub, u.key, client.id, origin, scope, opts.authTime, iat, iat + client.accessTtl);
    var identity := Identity(next + 2, u.sub, u.key, client.id, origin, opts.nonce, opts.authTime, iat, iat + client.idTtl);
    var grant := if opts.lineage.NewFamily? && opts.lineage.refresh
                 then Some(RefreshGrant(next + 3, now + client.refreshTtl * 1000)) else None;
    var start := if opts.lineage.NewFamily?
                 then [FamilyStarted(origin, u.key, client.id, scope, opts.authTime, grant, opts.lineage.source)] else [];
    Ok(TokenSet(access, if opts.identity then Some(identity) else None,
                if grant.Some? then Some(grant.value.token) else None, client.accessTtl),
       start + [Minted(access)] + if opts.identity then [Minted(identity)] else [])
  }

  function IssueApiTokens(next: Id, now: nat, client: Client, u: User, source: Source): (t: Txn<TokenSet>)
    ensures t.Ok?
  {
    IssueTokens(next, now, client, u, IssueOpts([ADMIN_SCOPE], None, Seconds(now), true, NewFamily(true, source)))
  }

  predicate OriginRevoked(db: Tables, o: Id) {
    o !in db.origins || db.origins[o].revoked
  }

  /** Exchanges a refresh token for new tokens of the same family. */
  function Refresh(db: Tables, next: Id, now: nat, client: Client, r: Id): Txn<TokenSet> {
    if r !in db.refresh then Err(InvalidRefreshToken)
    else
      var row := db.refresh[r];
      var k := UserKey(client.pool, row.owner.name);
      if row.client != client.id then Err(InvalidRefreshToken)
      else if row.revoked || OriginRevoked(db, row.origin) then Err(RefreshTokenRevoked)
      else if row.expiresAt < now then Err(RefreshTokenExpired)
      else if client.pool !in db.pools then Err(ResourceNotFound)
      else if k !in db.users then Err(InvalidRefreshToken)
      else if !db.users[k].enabled then Err(UserIsDisabled)
      else
        var scopes := Words(row.scope);
        IssueTokens(next, now, client, db.users[k],
                    IssueOpts(scopes, None, row.authTime, OPENID in scopes || ADMIN_SCOPE in scopes,
                              SameFamily(row.origin)))
  }

  /** Revokes a refresh token and its family; false when the token is unknown. */
  function RevokeRefresh(db: Tables, client: Client, r: Id): Txn<bool> {
    if r !in db.refresh then Ok(false, [])
    else if db.refresh[r].client != client.id then Err(Unauthorized)
    else Ok(true, [RefreshRevoked(r)])
  }

  /** Checks a presented access token; `minted` says whether its signature verifies. */
  function ValidateAccess(db: Tables, minted: bool, t: Token, now: nat): Txn<User> {
    if !minted || t.Identity? then Err(InvalidAccessToken)
    else if t.exp < Seconds(now) then Err(AccessTokenExpired)
    else
      var pool := if t.Access? then t.owner.pool else t.pool;
      if pool !in db.pools || t.ClientAccess? then Err(InvalidAccessToken)
      else if t.owner !in db.users then Err(UserNotFound)
      else if OriginRevoked(db, t.origin) then Err(AccessTokenRevoked)
      else if !db.users[t.owner].enabled then Err(UserIsDisabled)
      else Ok(db.users[t.owner], [])
  }

  /** `access_user`: a valid access token that carries the self-service scope. */
  function AccessUser(db: Tables, minted: bool, t: Token, now: nat): Txn<User> {
    var v := ValidateAccess(db, minted, t, now);
    if v.Ok? && !(t.Access? && ADMIN_SCOPE in Words(t.scope)) then Err(MissingScope) else v
  }

  function GlobalSignOut(now: nat, u: User): Txn<()> {
    Ok((), [SignedOut(u.key, now)])
  }

  // ---- Hosted-UI sessions and authorization codes ----

  function CreateSession(next: Id, now: nat, u: User, authTime: int): Txn<Id> {
    Ok(next, [SessionStarted(next, now, SessionRow(u.key, authTime, now + SESSION_TTL))])
  }

  function SessionUser(db: Tables, now: nat, p: Id, session: Id): Option<(User, int)> {
    if session !in db.sessions || db.sessions[session].owner.pool != p then None
    else
      var row := db.sessions[session];
      if row.expiresAt < now || row.owner !in db.users then None
      else
        var u := db.users[row.owner];
        if !u.enabled || u.status != CONFIRMED then None else Some((u, row.authTime))
  }

  function CreateCode(next: Id, now: nat, p: Id, a: Approval, u: User, authTime: int): Txn<Id> {
    var row := CodeRow(UserKey(p, u.key.name), a.client.id, a.redirectUri, Join(a.scopes), a.challenge,
                       a.challengeMethod, a.nonce, authTime, now + CODE_TTL, false);
    Ok(next, [CodeIssued(next, now, row)])
  }

  /** Consumes an authorization code; `None` if unknown, used or expired. */
  function TakeCode(db: Tables, now: nat, code: Id): Txn<Option<CodeRow>> {
    if code !in db.codes then Ok(None, [])
    else
      var row := db.codes[code];
      Ok(if row.used || row.expiresAt < now then None else Some(row), [CodeTaken(code)])
  }

  /** A presented PKCE verifier together with its S256 digest. */
  datatype Verifier = Verifier(text: string, s256: string)

  predicate VerifyPkce(challenge: string, m: PkceMethod, v: Verifier) {
    match m
    case S256 => v.s256 == challenge
    case Plain => v.text == challenge
  }

  predicate PkceHolds(row: CodeRow, v: Option<Verifier>) {
    row.challenge.Some? ==>
      && v.Some?
      && VerifyPkce(row.challenge.value, if row.challengeMethod.Some? then row.challengeMethod.value else Plain, v.value)
  }

  // ---- Verification codes ----

  function SetCode(now: nat, u: User, kind: VerifyKind, code: string): Txn<()> {
    Ok((), [VerifySet(VerifyKey(u.key, kind), VerifyRow(code, now + VERIFY_TTL))])
  }

  function CheckCode(db: Tables, now: nat, u: User, kind: VerifyKind, code: string): Txn<()> {
    var v := VerifyKey(u.key, kind);
    if v !in db.verify || db.verify[v].code != Trim(code) then Err(CodeMismatch)
    else if db.verify[v].expiresAt < now then Err(ExpiredCode)
    else Ok((), [VerifyUsed(v)])
  }
}
