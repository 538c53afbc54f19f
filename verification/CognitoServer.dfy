/** The request handlers as a state machine. Each step is one transaction. A handler that runs
    several transactions keeps the client, user and request it read earlier in `procs`, so the
    steps of different requests interleave freely and may act on stale snapshots. */
module CognitoServer {
  import opened Options
  import opened Text
  import opened CognitoTables
  import opened CognitoService

  /** A request between two of its transactions. */
  datatype Proc =
    | Authorizing(approval: Approval)
    | SignedIn(approval: Approval, user: User)
    | Completing(approval: Approval, user: User, authTime: int)
    | ClientReady(client: Client)

  datatype World = World(db: Tables, log: seq<Event>, next: Id, procs: map<Id, Proc>)

  const START := World(EMPTY_TABLES, [], 0, map[])

  /** Identifiers reserved for one step; the last one names a new request in progress. */
  const STRIDE := 8

  datatype ResponseType = CodeResponse | TokenResponse | OtherResponse

  datatype MethodParam = NoMethod | KnownMethod(pkceMethod: PkceMethod) | UnknownMethod

  /** The parameters of an authorize request; an empty one counts as absent. */
  datatype Query = Query(
    redirectUri: Option<string>,
    scope: Option<string>,
    responseType: ResponseType,
    challenge: Option<string>,
    challengeMethod: MethodParam,
    nonce: Option<string>)

  datatype Cmd =
    | CreatePool(settings: Pool)
    | UpdatePool(pool: Id, settings: Pool)
    | DeletePool(pool: Id)
    | CreateClient(clientSettings: Client)
    | UpdateClient(pool: Id, clientSettings: Client)
    | DeleteClient(pool: Id, client: Id)
    | AdminCreateUser(pool: Id, login: string, attrs: seq<(string, string)>, password: string,
                      conforms: bool, taken: bool, invite: bool)
    | SignUp(client: Id, login: string, attrs: seq<(string, string)>, password: string,
             conforms: bool, taken: bool, code: string)
    | AdminSetEnabled(owner: UserKey, enable: bool)
    | AdminDeleteUser(owner: UserKey)
    | AdminSetPassword(owner: UserKey, password: string, permanent: bool, conforms: bool)
    | AdminSignOut(owner: UserKey)
    | AdminUpdateAttributes(owner: UserKey, attrs: seq<(string, string)>)
    | AdminDeleteAttributes(owner: UserKey, names: seq<string>)
    | AdminConfirm(owner: UserKey)
    | AdminResetPassword(owner: UserKey, code: string)
    | InitiateAuth(adminPool: Option<Id>, client: Id, name: Username, password: string)
    | InitiateRefresh(adminPool: Option<Id>, client: Id, token: Id)
    | RespondToChallenge(optPool: Option<Id>, client: Id, challenge: ChallengeName, session: Id, password: string,
                         conforms: bool, attrs: seq<(string, string)>)
    | GetUserByToken(access: Token)
    | SignOutByToken(access: Token)
    | ChangePassword(access: Token, previous: string, password: string, conforms: bool)
    | RevokeToken(client: Id, secret: Option<string>, token: Id)
    | ConfirmSignUp(client: Id, name: Username, code: string)
    | SendCode(client: Id, name: Username, kind: VerifyKind, code: string)
    | ConfirmForgotPassword(client: Id, name: Username, code: string, password: string, conforms: bool)
    | Logout(session: Id)
    | Prepare(client: Id, query: Query)
    | ResumeSession(proc: Id, session: Id)
    | SignIn(proc: Id, name: Username, password: string)
    | AnswerChallenge(proc: Id, session: Id, password: string, conforms: bool)
    | StartSession(proc: Id)
    | Complete(proc: Id)
    | ClientAuth(client: Id, secret: Option<string>)
    | ExchangeCode(proc: Id, authCode: Id, redirectUri: string, verifier: Option<Verifier>)
    | ExchangeRefresh(proc: Id, token: Id)
    | ExchangeCredentials(proc: Id, scope: Option<string>)
    | Revoke(proc: Id, token: Id)

  datatype Reply =
    | InvalidGrant
    | Done
    | Issued(tokens: TokenSet)
    | Challenged(session: Id)
    | CodeReply(code: Id)
    | UserReply(user: User)
    | ClientTokenReply(token: Token)
    | Proceed(proc: Id)

  /** What the caller sees: an error, or the reply of a committed transaction. */
  datatype Answer = Failed(error: Error) | Replied(reply: Reply)

  // ---- Single-transaction API handlers ----

  function WithUser(db: Tables, k: UserKey): Txn<User> {
    if k.pool !in db.pools then Err(ResourceNotFound) else CognitoService.GetUser(db, k)
  }

  function WithClientUser(db: Tables, c: Id, name: Username): Txn<User> {
    if c !in db.clients then Err(ResourceNotFound)
    else WithUser(db, UserKey(db.clients[c].pool, name))
  }

  /** A transaction whose result the handler drops. */
  function Quiet<T>(t: Txn<T>): Txn<Reply> {
    if t.Ok? then Ok(Done, t.events) else Err(t.error)
  }

  function Reissue(t: Txn<TokenSet>, before: seq<Event>): Txn<Reply> {
    if t.Ok? then Ok(Issued(t.value), before + t.events) else Err(t.error)
  }

  function CreatePoolTxn(db: Tables, next: Id, settings: Pool): Txn<Reply> {
    if next in db.pools then Err(InvalidParameter) else Ok(Done, [PoolSaved(next, settings)])
  }

  /** Updates keep the attributes users sign in with. */
  function UpdatePoolTxn(db: Tables, p: Id, settings: Pool): Txn<Reply> {
    if p !in db.pools then Err(ResourceNotFound)
    else Ok(Done, [PoolSaved(p, settings.(usernameAttributes := db.pools[p].usernameAttributes))])
  }

  function CreateClientTxn(db: Tables, next: Id, settings: Client): Txn<Reply> {
    if settings.pool !in db.pools then Err(ResourceNotFound)
    else if next in db.clients then Err(InvalidParameter)
    else Ok(Done, [ClientSaved(settings.(id := next))])
  }

  function UpdateClientTxn(db: Tables, p: Id, settings: Client): Txn<Reply> {
    var t := GetClient(db, Some(p), settings.id);
    if t.Err? then Err(t.error)
    else Ok(Done, [ClientSaved(settings.(pool := t.value.pool, secret := t.value.secret))])
  }

  function AdminCreateUserTxn(db: Tables, next: Id, c: Cmd): Txn<Reply>
    requires c.AdminCreateUser?
  {
    if c.pool !in db.pools then Err(ResourceNotFound)
    else if !c.conforms then Err(InvalidPassword)
    else
      var req := NewUser(c.login, c.attrs, Some(c.password), FORCE_CHANGE_PASSWORD);
      var t := CreateUser(db, next, c.pool, db.pools[c.pool], req, c.taken);
      if t.Ok? && c.invite && EMAIL !in t.value.attributes then Err(InvalidParameter) else Quiet(t)
  }

  function SignUpTxn(db: Tables, next: Id, now: nat, c: Cmd): Txn<Reply>
    requires c.SignUp?
  {
    if c.client !in db.clients || db.clients[c.client].pool !in db.pools then Err(ResourceNotFound)
    else
      var p := db.clients[c.client].pool;
      if db.pools[p].adminCreateOnly then Err(NotPermitted)
      else if !c.conforms then Err(InvalidPassword)
      else
        var req := NewUser(c.login, c.attrs, Some(c.password), UNCONFIRMED);
        var t := CreateUser(db, next, p, db.pools[p], req, c.taken);
        if t.Err? then Err(t.error) else Ok(Done, t.events + SetCode(now, t.value, SignUpCode, c.code).events)
  }

  function SetEnabledTxn(db: Tables, k: UserKey, enable: bool): Txn<Reply> {
    var t := WithUser(db, k);
    if t.Err? then Err(t.error)
    else Ok(Done, if enable then [UserSaved(t.value.(enabled := true))] else [UserDisabled(t.value.key)])
  }

  function DeleteUserTxn(db: Tables, k: UserKey): Txn<Reply> {
    var t := WithUser(db, k);
    if t.Err? then Err(t.error) else Ok(Done, [UserDeleted(t.value.key)])
  }

  function SetPasswordTxn(db: Tables, c: Cmd): Txn<Reply>
    requires c.AdminSetPassword?
  {
    var t := WithUser(db, c.owner);
    if t.Err? then Err(t.error) else Quiet(SetPassword(t.value, c.password, c.permanent, c.conforms))
  }

  function SignOutTxn(db: Tables, now: nat, k: UserKey): Txn<Reply> {
    var t := WithUser(db, k);
    if t.Err? then Err(t.error) else Quiet(GlobalSignOut(now, t.value))
  }

  function UpdateAttributesTxn(db: Tables, k: UserKey, attrs: seq<(string, string)>): Txn<Reply> {
    var t := WithUser(db, k);
    if t.Err? then Err(t.error) else Quiet(UpdateAttributes(db, db.pools[k.pool], t.value, attrs))
  }

  function DeleteAttributesTxn(db: Tables, k: UserKey, names: seq<string>): Txn<Reply> {
    var t := WithUser(db, k);
    if t.Err? then Err(t.error)
    else if SUB in names then Err(InvalidParameter)
    else Ok(Done, [UserSaved(t.value.(attributes := t.value.attributes - set n | n in names))])
  }

  function ConfirmTxn(db: Tables, k: UserKey): Txn<Reply> {
    var t := WithUser(db, k);
    if t.Err? then Err(t.error) else Quiet(ConfirmUser(db.pools[k.pool], t.value))
  }

  function ResetPasswordTxn(db: Tables, now: nat, k: UserKey, code: string): Txn<Reply> {
    var t := WithUser(db, k);
    if t.Err? then Err(t.error)
    else if !t.value.enabled then Err(UserIsDisabled)
    else
      var u := t.value.(status := if t.value.status == UNCONFIRMED then UNCONFIRMED else RESET_REQUIRED);
      Ok(Done, [UserSaved(u)] + SetCode(now, u, ResetCode, code).events)
  }

  function InitiateAuthTxn(db: Tables, next: Id, now: nat, c: Cmd): Txn<Reply>
    requires c.InitiateAuth?
  {
    var t := GetClient(db, c.adminPool, c.client);
    if t.Err? then Err(t.error)
    else
      var client := t.value;
      if !client.AllowsFlow(if c.adminPool.Some? then AdminPasswordAuth else UserPasswordAuth) then Err(InvalidParameter)
      else if client.pool !in db.pools then Err(ResourceNotFound)
      else
        var a := Authenticate(db, client, UserKey(client.pool, c.name), c.password);
        if a.Err? then Err(a.error)
        else match a.value
          case SignedInAs(u) => Reissue(IssueApiTokens(next, now, client, u, FromPassword), [])
          case MustChangePassword(u) =>
            var ch := CreateChallenge(next, now, client, u);
            Ok(Challenged(next), ch.events)
  }

  function InitiateRefreshTxn(db: Tables, next: Id, now: nat, c: Cmd): Txn<Reply>
    requires c.InitiateRefresh?
  {
    var t := GetClient(db, c.adminPool, c.client);
    if t.Err? then Err(t.error)
    else if !t.value.AllowsFlow(RefreshTokenAuth) then Err(InvalidParameter)
    else Reissue(CognitoService.Refresh(db, next, now, t.value, c.token), [])
  }

  /** The challenge session and the new password: the part both handlers share. */
  function AnswerTxn(db: Tables, now: nat, client: Client, challenge: ChallengeName, session: Id,
                     password: string, conforms: bool): Txn<User>
  {
    var t := TakeChallenge(db, now, client, session, challenge);
    if t.Err? then t
    else if !t.value.enabled then Err(UserIsDisabled)
    else
      var s := SetPassword(t.value, password, true, conforms);
      if s.Err? then s else Ok(s.value, t.events + s.events)
  }

  function RespondTxn(db: Tables, next: Id, now: nat, c: Cmd): Txn<Reply>
    requires c.RespondToChallenge?
  {
    if c.challenge != NewPasswordRequired then Err(InvalidParameter)
    else
      var t := GetClient(db, c.optPool, c.client);
      if t.Err? then Err(t.error)
      else if t.value.pool !in db.pools then Err(ResourceNotFound)
      else
        var s := AnswerTxn(db, now, t.value, c.challenge, c.session, c.password, c.conforms);
        if s.Err? then Err(s.error)
        else
          var settings := db.pools[t.value.pool];
          var s' := if c.attrs == [] then Ok(s.value, [])
                    else UpdateAttributes(EffectAll(db, s.events), settings, s.value, c.attrs);
          if s'.Err? then Err(s'.error)
          else Reissue(IssueApiTokens(next, now, t.value, s'.value, FromChallenge(c.session)), s.events + s'.events)
  }

  function GetUserTxn(w: World, now: nat, t: Token): Txn<Reply> {
    var v := AccessUser(w.db, Minted(t) in w.log, t, now);
    if v.Err? then Err(v.error) else Ok(UserReply(v.value), [])
  }

  function SignOutByTokenTxn(w: World, now: nat, t: Token): Txn<Reply> {
    var v := AccessUser(w.db, Minted(t) in w.log, t, now);
    if v.Err? then Err(v.error) else Quiet(GlobalSignOut(now, v.value))
  }

  function ChangePasswordTxn(w: World, now: nat, c: Cmd): Txn<Reply>
    requires c.ChangePassword?
  {
    var v := AccessUser(w.db, Minted(c.access) in w.log, c.access, now);
    if v.Err? then Err(v.error)
    else if v.value.password != Some(c.previous) then Err(BadCredentials)
    else Quiet(SetPassword(v.value, c.password, true, c.conforms))
  }

  function RevokeTokenTxn(db: Tables, c: Cmd): Txn<Reply>
    requires c.RevokeToken?
  {
    if c.client !in db.clients then Err(ResourceNotFound)
    else
      var client := db.clients[c.client];
      if client.secret.Some? && c.secret != client.secret then Err(Unauthorized)
      else Quiet(RevokeRefresh(db, client, c.token))
  }

  function ConfirmSignUpTxn(db: Tables, now: nat, c: Cmd): Txn<Reply>
    requires c.ConfirmSignUp?
  {
    var t := WithClientUser(db, c.client, c.name);
    if t.Err? then Err(t.error)
    else if t.value.status != UNCONFIRMED then Err(CannotConfirm)
    else
      var ch := CheckCode(db, now, t.value, SignUpCode, c.code);
      if ch.Err? then Err(ch.error)
      else
        var s := ConfirmUser(db.pools[db.clients[c.client].pool], t.value);
        if s.Err? then Err(s.error) else Ok(Done, ch.events + s.events)
  }

  function SendCodeTxn(db: Tables, now: nat, c: Cmd): Txn<Reply>
    requires c.SendCode?
  {
    if c.client !in db.clients || db.clients[c.client].pool !in db.pools then Err(ResourceNotFound)
    else
      var client := db.clients[c.client];
      var k := UserKey(client.pool, c.name);
      if k !in db.users then (if client.hideUsers then Ok(Done, []) else Err(UserNotFound))
      else if !db.users[k].enabled then Err(UserIsDisabled)
      else if c.kind == SignUpCode && db.users[k].status != UNCONFIRMED then Err(InvalidParameter)
      else Quiet(SetCode(now, db.users[k], c.kind, c.code))
  }

  function ConfirmForgotTxn(db: Tables, now: nat, c: Cmd): Txn<Reply>
    requires c.ConfirmForgotPassword?
  {
    var t := WithClientUser(db, c.client, c.name);
    if t.Err? then Err(t.error)
    else
      var ch := CheckCode(db, now, t.value, ResetCode, c.code);
      if ch.Err? then Err(ch.error)
      else
        var s := SetPassword(t.value, c.password, true, c.conforms);
        if s.Err? then Err(s.error)
        else
          var u := s.value;
          var verify := if EMAIL in u.attributes
                        then [UserSaved(u.(attributes := u.attributes[EMAIL_VERIFIED := "true"]))] else [];
          Ok(Done, ch.events + s.events + verify)
  }

  // ---- Hosted UI ----

  predicate AllIn(xs: seq<string>, ys: seq<string>) {
    forall i :: 0 <= i < |xs| ==> xs[i] in ys
  }

  /** Validates an authorize request against the client as it is now. */
  function PrepareTxn(db: Tables, c: Id, q: Query): Txn<Approval> {
    if c !in db.clients then Err(InvalidClient)
    else if db.clients[c].pool !in db.pools then Err(ResourceNotFound)
    else
      var client := db.clients[c];
      var uri := if q.redirectUri.Some? then q.redirectUri else client.defaultRedirect;
      var scopes := if q.scope.Some? then Words(q.scope.value) else client.scopes;
      var implicit := q.responseType.TokenResponse?;
      if uri.None? || uri.value !in client.callbacks then Err(RedirectMismatch)
      else if q.responseType.OtherResponse? then Err(UnsupportedResponseType)
      else if !client.oauthEnabled || (if implicit then ImplicitFlow else CodeFlow) !in client.oauthFlows
      then Err(UnauthorizedClient)
      else if scopes == [] || !AllIn(scopes, client.scopes) then Err(InvalidScope)
      else if q.challengeMethod.UnknownMethod? then Err(InvalidRequest)
      else if q.challengeMethod.KnownMethod? && q.challenge.None? then Err(InvalidRequest)
      else
        var m := if q.challengeMethod.KnownMethod? then Some(q.challengeMethod.pkceMethod)
                 else if q.challenge.Some? then Some(Plain) else None;
        var a := Approval(client, uri.value, scopes, implicit, q.challenge, m, q.nonce);
        Ok(a, [Approved(a)])
  }

  function SignInTxn(db: Tables, next: Id, now: nat, client: Client, name: Username,
                     password: string): Txn<AuthOutcome> {
    var a := Authenticate(db, client, UserKey(client.pool, name), password);
    if a.Ok? && a.value.MustChangePassword?
    then Ok(a.value, CreateChallenge(next, now, client, a.value.user).events) else a
  }

  function CompleteTxn(next: Id, now: nat, a: Approval, u: User, authTime: int): Txn<Reply> {
    if a.implicit then
      Reissue(IssueTokens(next, now, a.client, u,
                          IssueOpts(a.scopes, a.nonce, authTime, OPENID in a.scopes,
                                    NewFamily(false, FromImplicit))), [])
    else
      var t := CreateCode(next, now, a.client.pool, a, u, authTime);
      Ok(CodeReply(next), t.events)
  }

  /** The code exchange. A refusal still commits, so the code stays consumed. */
  function ExchangeCodeTxn(db: Tables, next: Id, now: nat, client: Client, code: Id, redirectUri: string,
                           v: Option<Verifier>): Txn<Reply>
  {
    var t := TakeCode(db, now, code);
    if t.Err? then Err(t.error)
    else if t.value.None? then Ok(InvalidGrant, t.events)
    else
      var row := t.value.value;
      var k := UserKey(client.pool, row.owner.name);
      if row.client != client.id || row.redirectUri != redirectUri || !PkceHolds(row, v)
      then Ok(InvalidGrant, t.events)
      else if client.pool !in db.pools then Err(ResourceNotFound)
      else if k !in db.users || !db.users[k].enabled then Ok(InvalidGrant, t.events)
      else
        var scopes := Words(row.scope);
        Reissue(IssueTokens(next, now, client, db.users[k],
                            IssueOpts(scopes, row.nonce, row.authTime, OPENID in scopes,
                                      NewFamily(true, FromCode(code)))), t.events)
  }

  function WithSlash(scopes: seq<string>): seq<string> {
    if scopes == [] then []
    else (if '/' in scopes[0] then [scopes[0]] else []) + WithSlash(scopes[1..])
  }

  function CredentialsTxn(next: Id, now: nat, client: Client, scope: Option<string>): Txn<Reply> {
    if client.secret.None? then Err(InvalidClient)
    else if !client.oauthEnabled || CredentialsFlow !in client.oauthFlows then Err(UnauthorizedClient)
    else
      var allowed := WithSlash(client.scopes);
      var scopes := if scope.Some? then Words(scope.value) else allowed;
      if scopes == [] || !AllIn(scopes, allowed) then Err(InvalidScope)
      else
        var iat := Seconds(now);
        var t := ClientAccess(next, client.pool, client.id, Join(scopes), iat, iat + client.accessTtl);
        Ok(ClientTokenReply(t), [Minted(t)])
  }

  // ---- Steps ----

  /** `run`: commit every event of a successful transaction, none of a failed one. */
  function Commit(w: World, events: seq<Event>): World {
    w.(db := EffectAll(w.db, events), log := w.log + events, next := w.next + STRIDE)
  }

  /** Pool and client administration. */
  predicate IsDirectory(c: Cmd) {
    c.CreatePool? || c.UpdatePool? || c.DeletePool? || c.CreateClient? || c.UpdateClient? || c.DeleteClient?
  }

  function DirectoryTxn(db: Tables, next: Id, c: Cmd): Txn<Reply>
    requires IsDirectory(c)
  {
    match c
    case CreatePool(settings) => CreatePoolTxn(db, next, settings)
    case UpdatePool(p, settings) => UpdatePoolTxn(db, p, settings)
    case DeletePool(p) => Quiet(CognitoService.DeletePool(db, p))
    case CreateClient(settings) => CreateClientTxn(db, next, settings)
    case UpdateClient(p, settings) => UpdateClientTxn(db, p, settings)
    case DeleteClient(p, cl) => Quiet(CognitoService.DeleteClient(db, p, cl))
  }

  /** Operations of an administrator on one user. */
  predicate IsUserAdmin(c: Cmd) {
    c.AdminCreateUser? || c.AdminSetEnabled? || c.AdminDeleteUser? || c.AdminSetPassword? || c.AdminSignOut?
    || c.AdminUpdateAttributes? || c.AdminDeleteAttributes? || c.AdminConfirm? || c.AdminResetPassword?
  }

  function UserAdminTxn(db: Tables, next: Id, now: nat, c: Cmd): Txn<Reply>
    requires IsUserAdmin(c)
  {
    match c
    case AdminCreateUser(_, _, _, _, _, _, _) => AdminCreateUserTxn(db, next, c)
    case AdminSetEnabled(k, enable) => SetEnabledTxn(db, k, enable)
    case AdminDeleteUser(k) => DeleteUserTxn(db, k)
    case AdminSetPassword(_, _, _, _) => SetPasswordTxn(db, c)
    case AdminSignOut(k) => SignOutTxn(db, now, k)
    case AdminUpdateAttributes(k, attrs) => UpdateAttributesTxn(db, k, attrs)
    case AdminDeleteAttributes(k, names) => DeleteAttributesTxn(db, k, names)
    case AdminConfirm(k) => ConfirmTxn(db, k)
    case AdminResetPassword(k, code) => ResetPasswordTxn(db, now, k, code)
  }

  /** Operations of a user or an app on the user's behalf. */
  predicate IsSelfService(c: Cmd) {
    c.SignUp? || c.InitiateAuth? || c.InitiateRefresh? || c.RespondToChallenge? || c.GetUserByToken?
    || c.SignOutByToken? || c.ChangePassword? || c.RevokeToken? || c.ConfirmSignUp? || c.SendCode?
    || c.ConfirmForgotPassword? || c.Logout?
  }

  function SelfServiceTxn(w: World, now: nat, c: Cmd): Txn<Reply>
    requires IsSelfService(c)
  {
    var db, next := w.db, w.next;
    match c
    case SignUp(_, _, _, _, _, _, _) => SignUpTxn(db, next, now, c)
    case InitiateAuth(_, _, _, _) => InitiateAuthTxn(db, next, now, c)
    case InitiateRefresh(_, _, _) => InitiateRefreshTxn(db, next, now, c)
    case RespondToChallenge(_, _, _, _, _, _, _) => RespondTxn(db, next, now, c)
    case GetUserByToken(t) => GetUserTxn(w, now, t)
    case SignOutByToken(t) => SignOutByTokenTxn(w, now, t)
    case ChangePassword(_, _, _, _) => ChangePasswordTxn(w, now, c)
    case RevokeToken(_, _, _) => RevokeTokenTxn(db, c)
    case ConfirmSignUp(_, _, _) => ConfirmSignUpTxn(db, now, c)
    case SendCode(_, _, _, _) => SendCodeTxn(db, now, c)
    case ConfirmForgotPassword(_, _, _, _, _) => ConfirmForgotTxn(db, now, c)
    case Logout(session) => Ok(Done, [SessionEnded(session)])
  }

  predicate IsApi(c: Cmd) { IsDirectory(c) || IsUserAdmin(c) || IsSelfService(c) }

  function ApiTxn(w: World, now: nat, c: Cmd): Txn<Reply>
    requires IsApi(c)
  {
    if IsDirectory(c) then DirectoryTxn(w.db, w.next, c)
    else if IsUserAdmin(c) then UserAdminTxn(w.db, w.next, now, c)
    else SelfServiceTxn(w, now, c)
  }

  /** What a hosted-UI or token-endpoint step commits, replies, and carries on with. */
  datatype Hop = Hop(txn: Txn<Reply>, then_: Option<Proc>)

  function Stop(e: Error): Hop { Hop(Err(e), None) }

  function ProcHop(db: Tables, next: Id, now: nat, p: Proc, c: Cmd): Hop {
    match c
    case ResumeSession(_, session) =>
      if !p.Authorizing? then Stop(InvalidRequest)
      else
        var s := SessionUser(db, now, p.approval.client.pool, session);
        if s.None? then Stop(InvalidSession)
        else Hop(Ok(Done, []), Some(Completing(p.approval, s.value.0, s.value.1)))
    case SignIn(_, name, password) =>
      if !p.Authorizing? then Stop(InvalidRequest)
      else
        var t := SignInTxn(db, next, now, p.approval.client, name, password);
        if t.Err? then Stop(t.error)
        else if t.value.MustChangePassword? then Hop(Ok(Challenged(next), t.events), None)
        else Hop(Ok(Done, t.events), Some(SignedIn(p.approval, t.value.user)))
    case AnswerChallenge(_, session, password, conforms) =>
      if !p.Authorizing? then Stop(InvalidRequest)
      else
        var t := AnswerTxn(db, now, p.approval.client, NewPasswordRequired, session, password, conforms);
        if t.Err? then Stop(t.error) else Hop(Ok(Done, t.events), Some(SignedIn(p.approval, t.value)))
    case StartSession(_) =>
      if !p.SignedIn? then Stop(InvalidRequest)
      else
        var t := CreateSession(next, now, p.user, Seconds(now));
        Hop(Quiet(t), Some(Completing(p.approval, p.user, Seconds(now))))
    case Complete(_) =>
      if !p.Completing? then Stop(InvalidRequest)
      else Hop(CompleteTxn(next, now, p.approval, p.user, p.authTime), None)
    case ExchangeCode(_, code, uri, v) =>
      if !p.ClientReady? then Stop(InvalidRequest)
      else if !p.client.oauthEnabled || CodeFlow !in p.client.oauthFlows then Stop(UnauthorizedClient)
      else Hop(ExchangeCodeTxn(db, next, now, p.client, code, uri, v), None)
    case ExchangeRefresh(_, r) =>
      if !p.ClientReady? then Stop(InvalidRequest)
      else Hop(Reissue(CognitoService.Refresh(db, next, now, p.client, r), []), None)
    case ExchangeCredentials(_, scope) =>
      if !p.ClientReady? then Stop(InvalidRequest) else Hop(CredentialsTxn(next, now, p.client, scope), None)
    case Revoke(_, r) =>
      if !p.ClientReady? then Stop(InvalidRequest) else Hop(Quiet(RevokeRefresh(db, p.client, r)), None)
    case _ => Stop(InvalidRequest)
  }

  /** The first step of a hosted-UI or token-endpoint request. */
  function EntryHop(db: Tables, c: Cmd): Hop {
    match c
    case Prepare(cl, q) =>
      var t := PrepareTxn(db, cl, q);
      if t.Err? then Stop(t.error) else Hop(Ok(Done, t.events), Some(Authorizing(t.value)))
    case ClientAuth(cl, secret) =>
      if cl !in db.clients then Stop(InvalidClient)
      else if db.clients[cl].secret.Some? && secret != db.clients[cl].secret then Stop(InvalidClient)
      else Hop(Ok(Done, []), Some(ClientReady(db.clients[cl])))
    case _ => Stop(InvalidRequest)
  }

  /** The request carries on under `pid`, or is over. */
  function Land(w: World, pid: Id, h: Hop): World {
    var w' := if h.txn.Ok? then Commit(w, h.txn.events) else w;
    w'.(procs := if h.txn.Ok? && h.then_.Some? then w.procs[pid := h.then_.value] else w.procs - {pid})
  }

  function AnswerTo(t: Txn<Reply>): Answer {
    if t.Ok? then Replied(t.value) else Failed(t.error)
  }

  /** One transaction of one request, at time `now`. */
  function Step(w: World, now: nat, c: Cmd): (World, Answer) {
    if IsApi(c) then
      var t := ApiTxn(w, now, c);
      (if t.Ok? then Commit(w, t.events) else w, AnswerTo(t))
    else if c.Prepare? || c.ClientAuth? then
      var h := EntryHop(w.db, c);
      var pid := w.next + STRIDE - 1;
      (Land(w, pid, h), if h.txn.Ok? then Replied(Proceed(pid)) else Failed(h.txn.error))
    else if c.proc !in w.procs then (w, Failed(InvalidRequest))
    else
      var h := ProcHop(w.db, w.next, now, w.procs[c.proc], c);
      (Land(w, c.proc, h), AnswerTo(h.txn))
  }

  datatype Timed = Timed(now: nat, cmd: Cmd)

  /** The server after a run: any steps of any requests, interleaved in any order. */
  function Run(steps: seq<Timed>): World {
    if steps == [] then START
    else
      var last := steps[|steps| - 1];
      Step(Run(steps[..|steps| - 1]), last.now, last.cmd).0
  }
}
