/** The handlers as they run: the closures of `run`, over the service's own operations. Each is proved to do what its
    transaction in CognitoServer decides; rolling back is left to `run` itself. */
module CognitoHandlers {
  import opened Options
  import opened Text
  import opened CognitoTables
  import opened CognitoService
  import opened CognitoServer
  import opened CognitoStore

  function Quieted<T>(r: Result<T>): Result<Reply> {
    if r.Success? then Success(Done) else Failure(r.error)
  }

  // ---- Pools and clients ----

  method AddPool(s: Store, next: Id, settings: Pool) returns (r: Result<Reply>)
    modifies s
    ensures Does(old(s.Now()), s.Now(), r, CreatePoolTxn(old(s.View()), next, settings))
  {
    if next in s.pools {
      return Failure(InvalidParameter);
    }
    s.pools := s.pools[next := settings];
    AfterOne(old(s.Now()), PoolSaved(next, settings));
    r := Success(Done);
  }

  /** UpdateUserPool: every setting may change but the attributes users sign in with. */
  method ChangePool(s: Store, p: Id, settings: Pool) returns (r: Result<Reply>)
    modifies s
    ensures Does(old(s.Now()), s.Now(), r, UpdatePoolTxn(old(s.View()), p, settings))
  {
    if p !in s.pools {
      return Failure(ResourceNotFound);
    }
    var kept := s.pools[p].usernameAttributes;
    s.pools := s.pools[p := settings.(usernameAttributes := kept)];
    AfterOne(old(s.Now()), PoolSaved(p, settings.(usernameAttributes := kept)));
    r := Success(Done);
  }

  method AddClient(s: Store, next: Id, settings: Client) returns (r: Result<Reply>)
    modifies s
    ensures Does(old(s.Now()), s.Now(), r, CreateClientTxn(old(s.View()), next, settings))
  {
    if settings.pool !in s.pools {
      return Failure(ResourceNotFound);
    }
    if next in s.clients {
      return Failure(InvalidParameter);
    }
    s.clients := s.clients[next := settings.(id := next)];
    AfterOne(old(s.Now()), ClientSaved(settings.(id := next)));
    r := Success(Done);
  }

  /** UpdateUserPoolClient: the client keeps its pool and its secret. */
  method ChangeClient(s: Store, p: Id, settings: Client) returns (r: Result<Reply>)
    modifies s
    ensures Does(old(s.Now()), s.Now(), r, UpdateClientTxn(old(s.View()), p, settings))
  {
    if settings.id !in s.clients || s.clients[settings.id].pool != p {
      return Failure(ResourceNotFound);
    }
    var was := s.clients[settings.id];
    var saved := settings.(pool := was.pool, secret := was.secret);
    s.clients := s.clients[settings.id := saved];
    AfterOne(old(s.Now()), ClientSaved(saved));
    r := Success(Done);
  }

  method Directory(s: Store, next: Id, c: Cmd) returns (r: Result<Reply>)
    requires IsDirectory(c)
    modifies s
    ensures Does(old(s.Now()), s.Now(), r, DirectoryTxn(old(s.View()), next, c))
  {
    hide After;
    match c {
      case CreatePool(settings) => r := AddPool(s, next, settings);
      case UpdatePool(p, settings) => r := ChangePool(s, p, settings);
      case DeletePool(p) =>
        var q := s.DeletePool(p);
        r := Quieted(q);
      case CreateClient(settings) => r := AddClient(s, next, settings);
      case UpdateClient(p, settings) => r := ChangeClient(s, p, settings);
      case DeleteClient(p, cl) =>
        var q := s.DeleteClient(p, cl);
        r := Quieted(q);
    }
  }

  // ---- Users ----

  method FindUser(s: Store, k: UserKey) returns (r: Result<User>)
    ensures Does(s.Now(), s.Now(), r, WithUser(s.View(), k))
  {
    AfterNone(s.Now());
    if k.pool !in s.pools {
      return Failure(ResourceNotFound);
    }
    if k !in s.users {
      return Failure(UserNotFound);
    }
    r := Success(s.users[k]);
  }

  method FindClientUser(s: Store, c: Id, name: Username) returns (r: Result<User>)
    ensures Does(s.Now(), s.Now(), r, WithClientUser(s.View(), c, name))
  {
    if c !in s.clients {
      return Failure(ResourceNotFound);
    }
    r := FindUser(s, UserKey(s.clients[c].pool, name));
  }

  method AdminCreate(s: Store, next: Id, c: Cmd) returns (r: Result<Reply>)
    requires c.AdminCreateUser?
    modifies s
    ensures Does(old(s.Now()), s.Now(), r, AdminCreateUserTxn(old(s.View()), next, c))
  {
    hide After;
    hide CognitoService.CreateUser;
    if c.pool !in s.pools {
      return Failure(ResourceNotFound);
    }
    if !c.conforms {
      return Failure(InvalidPassword);
    }
    var req := NewUser(c.login, c.attrs, Some(c.password), FORCE_CHANGE_PASSWORD);
    var u := s.CreateUser(next, c.pool, s.pools[c.pool], req, c.taken);
    if u.Success? && c.invite && EMAIL !in u.value.attributes {
      return Failure(InvalidParameter);
    }
    r := Quieted(u);
  }

  /** SignUp: the new user and its confirmation code in one transaction. */
  method Register(s: Store, next: Id, now: nat, c: Cmd) returns (r: Result<Reply>)
    requires c.SignUp?
    modifies s
    ensures Does(old(s.Now()), s.Now(), r, SignUpTxn(old(s.View()), next, now, c))
  {
    hide After;
    hide CognitoService.CreateUser;
    if c.client !in s.clients || s.clients[c.client].pool !in s.pools {
      return Failure(ResourceNotFound);
    }
    var p := s.clients[c.client].pool;
    if s.pools[p].adminCreateOnly {
      return Failure(NotPermitted);
    }
    if !c.conforms {
      return Failure(InvalidPassword);
    }
    var req := NewUser(c.login, c.attrs, Some(c.password), UNCONFIRMED);
    ghost var t := CognitoService.CreateUser(s.View(), next, p, s.pools[p], req, c.taken);
    var u := s.CreateUser(next, p, s.pools[p], req, c.taken);
    if u.Failure? {
      return Failure(u.error);
    }
    s.SetCode(now, u.value, SignUpCode, c.code);
    AfterConcat(old(s.Now()), t.events, CognitoService.SetCode(now, u.value, SignUpCode, c.code).events);
    r := Success(Done);
  }

  /** AdminDisableUser and AdminEnableUser: disabling also ends the user's sessions. */
  method SetEnabled(s: Store, k: UserKey, enable: bool) returns (r: Result<Reply>)
    requires Keyed(s.users)
    modifies s
    ensures Does(old(s.Now()), s.Now(), r, SetEnabledTxn(old(s.View()), k, enable))
  {
    hide After;
    var f := FindUser(s, k);
    if f.Failure? {
      return Failure(f.error);
    }
    var u := f.value.(enabled := enable);
    if !enable {
      s.sessions := map i | i in s.sessions && s.sessions[i].owner != k :: s.sessions[i];
    }
    s.SaveUser(u);
    AfterOne(old(s.Now()), if enable then UserSaved(u) else UserDisabled(k));
    r := Success(Done);
  }

  method AdminDelete(s: Store, k: UserKey) returns (r: Result<Reply>)
    modifies s
    ensures Does(old(s.Now()), s.Now(), r, DeleteUserTxn(old(s.View()), k))
  {
    hide After;
    hide Effect;
    var f := FindUser(s, k);
    if f.Failure? {
      return Failure(f.error);
    }
    s.DeleteUser(f.value);
    AfterOne(old(s.Now()), UserDeleted(f.value.key));
    r := Success(Done);
  }

  method AdminPassword(s: Store, c: Cmd) returns (r: Result<Reply>)
    requires c.AdminSetPassword? && Keyed(s.users)
    modifies s
    ensures Does(old(s.Now()), s.Now(), r, SetPasswordTxn(old(s.View()), c))
  {
    hide After;
    var f := FindUser(s, c.owner);
    if f.Failure? {
      return Failure(f.error);
    }
    var u := s.SetPassword(f.value, c.password, c.permanent, c.conforms);
    r := Quieted(u);
  }

  method AdminSignOutUser(s: Store, now: nat, k: UserKey) returns (r: Result<Reply>)
    requires Keyed(s.users)
    modifies s
    ensures Does(old(s.Now()), s.Now(), r, SignOutTxn(old(s.View()), now, k))
  {
    hide After;
    hide Effect;
    var f := FindUser(s, k);
    if f.Failure? {
      return Failure(f.error);
    }
    s.GlobalSignOut(now, f.value);
    AfterOne(old(s.Now()), SignedOut(f.value.key, now));
    r := Success(Done);
  }

  method AdminUpdate(s: Store, k: UserKey, attrs: seq<(string, string)>) returns (r: Result<Reply>)
    requires Keyed(s.users)
    modifies s
    ensures Does(old(s.Now()), s.Now(), r, UpdateAttributesTxn(old(s.View()), k, attrs))
  {
    hide After;
    hide CognitoService.UpdateAttributes;
    var f := FindUser(s, k);
    if f.Failure? {
      return Failure(f.error);
    }
    var u := s.UpdateAttributes(s.pools[k.pool], f.value, attrs);
    r := Quieted(u);
  }

  method AdminRemove(s: Store, k: UserKey, names: seq<string>) returns (r: Result<Reply>)
    requires Keyed(s.users)
    modifies s
    ensures Does(old(s.Now()), s.Now(), r, DeleteAttributesTxn(old(s.View()), k, names))
  {
    hide After;
    hide Effect;
    var f := FindUser(s, k);
    if f.Failure? {
      return Failure(f.error);
    }
    if SUB in names {
      return Failure(InvalidParameter);
    }
    var u := f.value.(attributes := f.value.attributes - set n | n in names);
    s.SaveUser(u);
    AfterOne(old(s.Now()), UserSaved(u));
    r := Success(Done);
  }

  /** `confirm_user`. */
  method Confirm(s: Store, settings: Pool, u: User) returns (r: Result<User>)
    requires u.key in s.users
    modifies s
    ensures Does(old(s.Now()), s.Now(), r, ConfirmUser(settings, u))
  {
    hide After;
    hide Effect;
    if u.status != UNCONFIRMED {
      return Failure(CannotConfirm);
    }
    var attrs := u.attributes;
    if EMAIL in settings.autoVerified && EMAIL in attrs {
      attrs := attrs[EMAIL_VERIFIED := "true"];
    }
    var u' := u.(status := CONFIRMED, attributes := attrs);
    s.SaveUser(u');
    AfterOne(old(s.Now()), UserSaved(u'));
    r := Success(u');
  }

  method AdminConfirmUser(s: Store, k: UserKey) returns (r: Result<Reply>)
    requires Keyed(s.users)
    modifies s
    ensures Does(old(s.Now()), s.Now(), r, ConfirmTxn(old(s.View()), k))
  {
    hide After;
    hide ConfirmUser;
    var f := FindUser(s, k);
    if f.Failure? {
      return Failure(f.error);
    }
    var u := Confirm(s, s.pools[k.pool], f.value);
    r := Quieted(u);
  }

  method AdminReset(s: Store, now: nat, k: UserKey, code: string) returns (r: Result<Reply>)
    requires Keyed(s.users)
    modifies s
    ensures Does(old(s.Now()), s.Now(), r, ResetPasswordTxn(old(s.View()), now, k, code))
  {
    hide After;
    hide Effect;
    var f := FindUser(s, k);
    if f.Failure? {
      return Failure(f.error);
    }
    if !f.value.enabled {
      return Failure(UserIsDisabled);
    }
    var u := f.value;
    if u.status != UNCONFIRMED {
      u := u.(status := RESET_REQUIRED);
    }
    s.SaveUser(u);
    AfterOne(old(s.Now()), UserSaved(u));
    s.SetCode(now, u, ResetCode, code);
    AfterConcat(old(s.Now()), [UserSaved(u)], CognitoService.SetCode(now, u, ResetCode, code).events);
    r := Success(Done);
  }

  method UserAdmin(s: Store, next: Id, now: nat, c: Cmd) returns (r: Result<Reply>)
    requires IsUserAdmin(c) && Keyed(s.users)
    modifies s
    ensures Does(old(s.Now()), s.Now(), r, UserAdminTxn(old(s.View()), next, now, c))
  {
    hide After;
    match c {
      case AdminCreateUser(_, _, _, _, _, _, _) => r := AdminCreate(s, next, c);
      case AdminSetEnabled(k, enable) => r := SetEnabled(s, k, enable);
      case AdminDeleteUser(k) => r := AdminDelete(s, k);
      case AdminSetPassword(_, _, _, _) => r := AdminPassword(s, c);
      case AdminSignOut(k) => r := AdminSignOutUser(s, now, k);
      case AdminUpdateAttributes(k, attrs) => r := AdminUpdate(s, k, attrs);
      case AdminDeleteAttributes(k, names) => r := AdminRemove(s, k, names);
      case AdminConfirm(k) => r := AdminConfirmUser(s, k);
      case AdminResetPassword(k, code) => r := AdminReset(s, now, k, code);
    }
  }

  // ---- Self-service ----

  /** InitiateAuth with a password: tokens, or a challenge when the password must be changed. */
  method SignInByPassword(s: Store, next: Id, now: nat, c: Cmd) returns (r: Result<Reply>)
    requires c.InitiateAuth?
    modifies s
    ensures Does(old(s.Now()), s.Now(), r, InitiateAuthTxn(old(s.View()), next, now, c))
  {
    hide CognitoService.IssueTokens;
    hide After;
    if c.client !in s.clients || (c.adminPool.Some? && c.adminPool.value != s.clients[c.client].pool) {
      return Failure(ResourceNotFound);
    }
    var client := s.clients[c.client];
    if !client.AllowsFlow(if c.adminPool.Some? then AdminPasswordAuth else UserPasswordAuth) {
      return Failure(InvalidParameter);
    }
    if client.pool !in s.pools {
      return Failure(ResourceNotFound);
    }
    var outcome := s.Authenticate(client, UserKey(client.pool, c.name), c.password);
    if outcome.Failure? {
      return Failure(outcome.error);
    }
    match outcome.value {
      case SignedInAs(u) =>
        var ts := s.IssueApiTokens(next, now, client, u, FromPassword);
        NothingBefore(CognitoService.IssueApiTokens(next, now, client, u, FromPassword).events);
        r := Success(Issued(ts));
      case MustChangePassword(u) =>
        var session := s.CreateChallenge(next, now, client, u);
        r := Success(Challenged(session));
    }
  }

  lemma {:induction false} NothingBefore(es: seq<Event>)
    ensures [] + es == es
  {
  }

  method SignInByRefresh(s: Store, next: Id, now: nat, c: Cmd) returns (r: Result<Reply>)
    requires c.InitiateRefresh?
    modifies s
    ensures Does(old(s.Now()), s.Now(), r, InitiateRefreshTxn(old(s.View()), next, now, c))
  {
    hide CognitoService.Refresh;
    hide After;
    if c.client !in s.clients || (c.adminPool.Some? && c.adminPool.value != s.clients[c.client].pool) {
      return Failure(ResourceNotFound);
    }
    var client := s.clients[c.client];
    if !client.AllowsFlow(RefreshTokenAuth) {
      return Failure(InvalidParameter);
    }
    r := Reissued(s, next, now, client, c.token);
  }

  method Reissued(s: Store, next: Id, now: nat, client: Client, token: Id) returns (r: Result<Reply>)
    modifies s
    ensures Does(old(s.Now()), s.Now(), r, Reissue(CognitoService.Refresh(old(s.View()), next, now, client, token), []))
  {
    hide CognitoService.Refresh;
    hide After;
    ghost var t := CognitoService.Refresh(s.View(), next, now, client, token);
    var ts := s.Refresh(next, now, client, token);
    if ts.Failure? {
      return Failure(ts.error);
    }
    NothingBefore(t.events);
    r := Success(Issued(ts.value));
  }

  /** The challenge session and the new password. */
  method TakeAnswer(s: Store, now: nat, client: Client, name: ChallengeName, session: Id, pw: string, conforms: bool)
    returns (r: Result<User>)
    requires Keyed(s.users)
    modifies s
    ensures Does(old(s.Now()), s.Now(), r, AnswerTxn(old(s.View()), now, client, name, session, pw, conforms))
    ensures r.Success? ==> r.value.key in s.users && s.pools == old(s.pools)
  {
    var u := s.TakeChallenge(now, client, session, name);
    if u.Failure? {
      return u;
    }
    AfterOne(old(s.Now()), ChallengeTaken(session));
    if !u.value.enabled {
      return Failure(UserIsDisabled);
    }
    r := s.SetPassword(u.value, pw, true, conforms);
    if r.Success? {
      AfterOne(Saved(old(s.Now()), ChallengeTaken(session)), UserSaved(r.value));
      AfterConcat(old(s.Now()), [ChallengeTaken(session)], [UserSaved(r.value)]);
    }
  }

  /** RespondToAuthChallenge. */
  method Respond(s: Store, next: Id, now: nat, c: Cmd) returns (r: Result<Reply>)
    requires c.RespondToChallenge? && Keyed(s.users)
    modifies s
    ensures Does(old(s.Now()), s.Now(), r, RespondTxn(old(s.View()), next, now, c))
  {
    hide After;
    hide AnswerTxn;
    hide CognitoService.UpdateAttributes;
    hide CognitoService.IssueTokens;
    if c.challenge != NewPasswordRequired {
      return Failure(InvalidParameter);
    }
    if c.client !in s.clients || (c.optPool.Some? && c.optPool.value != s.clients[c.client].pool) {
      return Failure(ResourceNotFound);
    }
    var client := s.clients[c.client];
    if client.pool !in s.pools {
      return Failure(ResourceNotFound);
    }
    var settings := s.pools[client.pool];
    ghost var t := AnswerTxn(s.View(), now, client, c.challenge, c.session, c.password, c.conforms);
    var u := TakeAnswer(s, now, client, c.challenge, c.session, c.password, c.conforms);
    if u.Failure? {
      return Failure(u.error);
    }
    AfterTables(old(s.Now()), t.events);
    ghost var t' := if c.attrs == [] then Ok(t.value, [])
                    else CognitoService.UpdateAttributes(s.View(), settings, t.value, c.attrs);
    u := UpdateIfAny(s, settings, u.value, c.attrs);
    if u.Failure? {
      return Failure(u.error);
    }
    AfterConcat(old(s.Now()), t.events, t'.events);
    var ts := s.IssueApiTokens(next, now, client, u.value, FromChallenge(c.session));
    ghost var t2 := CognitoService.IssueApiTokens(next, now, client, u.value, FromChallenge(c.session));
    AfterConcat(old(s.Now()), t.events + t'.events, t2.events);
    r := Success(Issued(ts));
  }

  lemma {:induction false} AfterTables(s: Snapshot, es: seq<Event>)
    ensures After(s, es).db == EffectAll(s.db, es)
  {
  }

  method UpdateIfAny(s: Store, settings: Pool, u: User, attrs: seq<(string, string)>) returns (r: Result<User>)
    requires u.key in s.users
    modifies s
    ensures Does(old(s.Now()), s.Now(), r,
                 if attrs == [] then Ok(u, []) else CognitoService.UpdateAttributes(old(s.View()), settings, u, attrs))
  {
    hide After;
    AfterNone(s.Now());
    r := Success(u);
    if attrs != [] {
      r := s.UpdateAttributes(settings, u, attrs);
    }
  }

  /** `access_user`: a valid access token that carries the self-service scope. */
  method BearerUser(s: Store, t: Token, now: nat) returns (r: Result<User>)
    ensures Does(s.Now(), s.Now(), r, AccessUser(s.View(), t in s.signed, t, now))
    ensures r.Success? ==> t.Access? && t.owner in s.users && r.value == s.users[t.owner]
  {
    hide After;
    r := s.ValidateAccess(t, now);
    if r.Success? && !(t.Access? && ADMIN_SCOPE in Words(t.scope)) {
      return Failure(MissingScope);
    }
  }

  /** The tokens signed are those the history minted. */
  ghost predicate SignedIs(signed: set<Token>, log: seq<Event>) {
    forall t :: t in signed <==> Minted(t) in log
  }

  method TellUser(s: Store, now: nat, t: Token, ghost w: World) returns (r: Result<Reply>)
    requires w.db == s.View() && SignedIs(s.signed, w.log)
    ensures Does(s.Now(), s.Now(), r, GetUserTxn(w, now, t))
  {
    hide After;
    hide AccessUser;
    AfterNone(s.Now());
    var u := BearerUser(s, t, now);
    r := if u.Success? then Success(UserReply(u.value)) else Failure(u.error);
  }

  method SignOutBearer(s: Store, now: nat, t: Token, ghost w: World) returns (r: Result<Reply>)
    requires w.db == s.View() && SignedIs(s.signed, w.log) && Keyed(s.users)
    modifies s
    ensures Does(old(s.Now()), s.Now(), r, SignOutByTokenTxn(w, now, t))
  {
    hide After;
    hide AccessUser;
    hide Effect;
    var u := BearerUser(s, t, now);
    if u.Failure? {
      return Failure(u.error);
    }
    s.GlobalSignOut(now, u.value);
    AfterOne(old(s.Now()), SignedOut(u.value.key, now));
    r := Success(Done);
  }

  method ChangeOwnPassword(s: Store, now: nat, c: Cmd, ghost w: World) returns (r: Result<Reply>)
    requires c.ChangePassword? && w.db == s.View() && SignedIs(s.signed, w.log) && Keyed(s.users)
    modifies s
    ensures Does(old(s.Now()), s.Now(), r, ChangePasswordTxn(w, now, c))
  {
    hide After;
    hide AccessUser;
    var u := BearerUser(s, c.access, now);
    if u.Failure? {
      return Failure(u.error);
    }
    if u.value.password != Some(c.previous) {
      return Failure(BadCredentials);
    }
    var u' := s.SetPassword(u.value, c.password, true, c.conforms);
    r := Quieted(u');
  }

  method RevokeByApi(s: Store, c: Cmd) returns (r: Result<Reply>)
    requires c.RevokeToken?
    modifies s
    ensures Does(old(s.Now()), s.Now(), r, RevokeTokenTxn(old(s.View()), c))
  {
    hide After;
    hide CognitoService.RevokeRefresh;
    if c.client !in s.clients {
      return Failure(ResourceNotFound);
    }
    var client := s.clients[c.client];
    if client.secret.Some? && c.secret != client.secret {
      return Failure(Unauthorized);
    }
    var q := s.RevokeRefresh(client, c.token);
    r := Quieted(q);
  }

  /** ConfirmSignUp: the code is spent only if the user is then confirmed. */
  method FinishSignUp(s: Store, now: nat, c: Cmd) returns (r: Result<Reply>)
    requires c.ConfirmSignUp? && Keyed(s.users)
    modifies s
    ensures Does(old(s.Now()), s.Now(), r, ConfirmSignUpTxn(old(s.View()), now, c))
  {
    hide After;
    hide ConfirmUser;
    var f := FindClientUser(s, c.client, c.name);
    if f.Failure? {
      return Failure(f.error);
    }
    var u := f.value;
    if u.status != UNCONFIRMED {
      return Failure(CannotConfirm);
    }
    var settings := s.pools[s.clients[c.client].pool];
    ghost var t := CognitoService.CheckCode(s.View(), now, u, SignUpCode, c.code);
    var checked := SpendCode(s, now, u, SignUpCode, c.code);
    if checked.Failure? {
      return Failure(checked.error);
    }
    var q := Confirm(s, settings, u);
    if q.Failure? {
      return Failure(q.error);
    }
    AfterConcat(old(s.Now()), t.events, ConfirmUser(settings, u).events);
    r := Success(Done);
  }

  /** Checking a code writes to no table but that of the codes. */
  method SpendCode(s: Store, now: nat, u: User, kind: VerifyKind, code: string) returns (r: Result<()>)
    modifies s
    ensures Does(old(s.Now()), s.Now(), r, CognitoService.CheckCode(old(s.View()), now, u, kind, code))
    ensures r.Success? ==> s.users == old(s.users)
  {
    r := s.CheckCode(now, u, kind, code);
    if r.Success? {
      AfterOne(old(s.Now()), VerifyUsed(VerifyKey(u.key, kind)));
    }
  }

  /** ResendConfirmationCode and ForgotPassword. */
  method SendCodeTo(s: Store, now: nat, c: Cmd) returns (r: Result<Reply>)
    requires c.SendCode?
    modifies s
    ensures Does(old(s.Now()), s.Now(), r, SendCodeTxn(old(s.View()), now, c))
  {
    hide After;
    AfterNone(s.Now());
    if c.client !in s.clients || s.clients[c.client].pool !in s.pools {
      return Failure(ResourceNotFound);
    }
    var client := s.clients[c.client];
    var k := UserKey(client.pool, c.name);
    if k !in s.users {
      return if client.hideUsers then Success(Done) else Failure(UserNotFound);
    }
    if !s.users[k].enabled {
      return Failure(UserIsDisabled);
    }
    if c.kind == SignUpCode && s.users[k].status != UNCONFIRMED {
      return Failure(InvalidParameter);
    }
    s.SetCode(now, s.users[k], c.kind, c.code);
    r := Success(Done);
  }

  /** ConfirmForgotPassword. */
  method FinishReset(s: Store, now: nat, c: Cmd) returns (r: Result<Reply>)
    requires c.ConfirmForgotPassword? && Keyed(s.users)
    modifies s
    ensures Does(old(s.Now()), s.Now(), r, ConfirmForgotTxn(old(s.View()), now, c))
  {
    hide After;
    hide Effect;
    var f := FindClientUser(s, c.client, c.name);
    if f.Failure? {
      return Failure(f.error);
    }
    var u := f.value;
    ghost var t := CognitoService.CheckCode(s.View(), now, u, ResetCode, c.code);
    var checked := SpendCode(s, now, u, ResetCode, c.code);
    if checked.Failure? {
      return Failure(checked.error);
    }
    ghost var t' := CognitoService.SetPassword(u, c.password, true, c.conforms);
    var q := ResetTo(s, u, c.password, c.conforms);
    if q.Failure? {
      return Failure(q.error);
    }
    ghost var es := t.events + t'.events;
    AfterConcat(old(s.Now()), t.events, t'.events);
    assert es + [] == es;
    if EMAIL in q.value.attributes {
      var u' := q.value.(attributes := q.value.attributes[EMAIL_VERIFIED := "true"]);
      ghost var mid := s.Now();
      s.SaveUser(u');
      AfterOne(mid, UserSaved(u'));
      AfterConcat(old(s.Now()), es, [UserSaved(u')]);
    }
    r := Success(Done);
  }

  method ResetTo(s: Store, u: User, pw: string, conforms: bool) returns (r: Result<User>)
    requires u.key in s.users
    modifies s
    ensures Does(old(s.Now()), s.Now(), r, CognitoService.SetPassword(u, pw, true, conforms))
    ensures r.Success? ==> r.value.key in s.users
  {
    r := s.SetPassword(u, pw, true, conforms);
    if r.Success? {
      AfterOne(old(s.Now()), UserSaved(r.value));
    }
  }

  method LogOut(s: Store, session: Id) returns (r: Result<Reply>)
    modifies s
    ensures Does(old(s.Now()), s.Now(), r, Ok(Done, [SessionEnded(session)]))
  {
    s.DeleteSession(session);
    AfterOne(old(s.Now()), SessionEnded(session));
    r := Success(Done);
  }
}
