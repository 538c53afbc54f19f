/** The whole server as it runs: a store, the requests in progress, and one transaction for each command, rolled back
    when it fails. It is proved to behave, over every run, as the state machine of CognitoServer does, so
    everything proved of that machine's runs holds of this program. */
module CognitoProgram {
  import opened Options
  import opened Text
  import opened CognitoTables
  import opened CognitoGrants
  import opened CognitoService
  import opened CognitoServer
  import opened CognitoStore
  import opened CognitoHandlers
  import CognitoLog
  import CognitoTheorems

  // ---- Dispatch ----

  method SelfService(s: Store, next: Id, now: nat, c: Cmd, ghost w: World) returns (r: Result<Reply>)
    requires IsSelfService(c) && w.db == s.View() && w.next == next && SignedIs(s.signed, w.log) && Keyed(s.users)
    modifies s
    ensures Does(old(s.Now()), s.Now(), r, SelfServiceTxn(w, now, c))
  {
    hide After;
    if c.SignUp? || c.ConfirmSignUp? || c.SendCode? || c.ConfirmForgotPassword? || c.RevokeToken? || c.Logout? {
      r := Account(s, next, now, c, w);
    } else {
      r := SignInOrOut(s, next, now, c, w);
    }
  }

  method Account(s: Store, next: Id, now: nat, c: Cmd, ghost w: World) returns (r: Result<Reply>)
    requires c.SignUp? || c.ConfirmSignUp? || c.SendCode? || c.ConfirmForgotPassword? || c.RevokeToken? || c.Logout?
    requires w.db == s.View() && w.next == next && Keyed(s.users)
    modifies s
    ensures Does(old(s.Now()), s.Now(), r, SelfServiceTxn(w, now, c))
  {
    hide After;
    match c {
      case SignUp(_, _, _, _, _, _, _) => r := Register(s, next, now, c);
      case ConfirmSignUp(_, _, _) => r := FinishSignUp(s, now, c);
      case SendCode(_, _, _, _) => r := SendCodeTo(s, now, c);
      case ConfirmForgotPassword(_, _, _, _, _) => r := FinishReset(s, now, c);
      case RevokeToken(_, _, _) => r := RevokeByApi(s, c);
      case Logout(session) => r := LogOut(s, session);
    }
  }

  method SignInOrOut(s: Store, next: Id, now: nat, c: Cmd, ghost w: World) returns (r: Result<Reply>)
    requires c.InitiateAuth? || c.InitiateRefresh? || c.RespondToChallenge? || c.GetUserByToken? || c.SignOutByToken?
             || c.ChangePassword?
    requires w.db == s.View() && w.next == next && SignedIs(s.signed, w.log) && Keyed(s.users)
    modifies s
    ensures Does(old(s.Now()), s.Now(), r, SelfServiceTxn(w, now, c))
  {
    hide After;
    match c {
      case InitiateAuth(_, _, _, _) => r := SignInByPassword(s, next, now, c);
      case InitiateRefresh(_, _, _) => r := SignInByRefresh(s, next, now, c);
      case RespondToChallenge(_, _, _, _, _, _, _) => r := Respond(s, next, now, c);
      case GetUserByToken(t) => r := TellUser(s, now, t, w);
      case SignOutByToken(t) => r := SignOutBearer(s, now, t, w);
      case ChangePassword(_, _, _, _) => r := ChangeOwnPassword(s, now, c, w);
    }
  }

  method Api(s: Store, next: Id, now: nat, c: Cmd, ghost w: World) returns (r: Result<Reply>)
    requires IsApi(c) && w.db == s.View() && w.next == next && SignedIs(s.signed, w.log) && Keyed(s.users)
    modifies s
    ensures Does(old(s.Now()), s.Now(), r, ApiTxn(w, now, c))
  {
    hide After;
    hide DirectoryTxn;
    hide UserAdminTxn;
    hide SelfServiceTxn;
    if IsDirectory(c) {
      r := Directory(s, next, c);
    } else if IsUserAdmin(c) {
      r := UserAdmin(s, next, now, c);
    } else {
      r := SelfService(s, next, now, c, w);
    }
  }

  // ---- Hosted UI and token endpoint ----

  /** Validates an authorize request, filling in the client's defaults. */
  method Validate(s: Store, c: Id, q: Query) returns (r: Result<Approval>)
    ensures Does(s.Now(), s.Now(), r, PrepareTxn(s.View(), c, q))
  {
    hide Words;
    hide After;
    hide AllIn;
    if c !in s.clients {
      return Failure(InvalidClient);
    }
    var client := s.clients[c];
    if client.pool !in s.pools {
      return Failure(ResourceNotFound);
    }
    var uri := q.redirectUri;
    if uri.None? {
      uri := client.defaultRedirect;
    }
    if uri.None? || uri.value !in client.callbacks {
      return Failure(RedirectMismatch);
    }
    var scopes := client.scopes;
    if q.scope.Some? {
      scopes := Words(q.scope.value);
    }
    if q.responseType.OtherResponse? {
      return Failure(UnsupportedResponseType);
    }
    var implicit := q.responseType.TokenResponse?;
    if !client.oauthEnabled || (if implicit then ImplicitFlow else CodeFlow) !in client.oauthFlows {
      return Failure(UnauthorizedClient);
    }
    var allowed := AllAllowed(scopes, client.scopes);
    if scopes == [] || !allowed {
      return Failure(InvalidScope);
    }
    if q.challengeMethod.UnknownMethod? || (q.challengeMethod.KnownMethod? && q.challenge.None?) {
      return Failure(InvalidRequest);
    }
    var pkce: Option<PkceMethod> := None;
    if q.challengeMethod.KnownMethod? {
      pkce := Some(q.challengeMethod.pkceMethod);
    }
    if q.challenge.Some? && pkce.None? {
      pkce := Some(Plain);
    }
    var a := Approval(client, uri.value, scopes, implicit, q.challenge, pkce, q.nonce);
    ApprovedLeaves(s.Now(), a);
    r := Success(a);
  }

  lemma {:induction false} ApprovedLeaves(s: Snapshot, a: Approval)
    ensures After(s, [Approved(a)]) == s
  {
    AfterOne(s, Approved(a));
  }

  /** Every requested scope is one of the client's. */
  method AllAllowed(scopes: seq<string>, allowed: seq<string>) returns (ok: bool)
    ensures ok == AllIn(scopes, allowed)
  {
    var i := 0;
    while i < |scopes|
      invariant 0 <= i <= |scopes| && forall j :: 0 <= j < i ==> scopes[j] in allowed
    {
      if scopes[i] !in allowed {
        return false;
      }
      i := i + 1;
    }
    ok := true;
  }

  /** The first step of a hosted-UI or token-endpoint request. */
  method Enter(s: Store, c: Cmd) returns (r: Result<Reply>, carry: Option<Proc>)
    requires c.Prepare? || c.ClientAuth?
    ensures var h := EntryHop(s.View(), c); Does(s.Now(), s.Now(), r, h.txn) && carry == h.then_
  {
    hide After;
    hide PrepareTxn;
    AfterNone(s.Now());
    carry := None;
    if c.Prepare? {
      var a := Validate(s, c.client, c.query);
      if a.Failure? {
        return Failure(a.error), None;
      }
      return Success(Done), Some(Authorizing(a.value));
    }
    if c.client !in s.clients || (s.clients[c.client].secret.Some? && c.secret != s.clients[c.client].secret) {
      return Failure(InvalidClient), None;
    }
    r, carry := Success(Done), Some(ClientReady(s.clients[c.client]));
  }

  method Resume(s: Store, now: nat, p: Proc, c: Cmd, ghost next: Id) returns (r: Result<Reply>, carry: Option<Proc>)
    requires c.ResumeSession?
    ensures var h := ProcHop(s.View(), next, now, p, c); Does(s.Now(), s.Now(), r, h.txn) && carry == h.then_
  {
    hide After;
    AfterNone(s.Now());
    if !p.Authorizing? {
      return Failure(InvalidRequest), None;
    }
    var found := s.SessionUser(now, p.approval.client.pool, c.session);
    if found.None? {
      return Failure(InvalidSession), None;
    }
    r, carry := Success(Done), Some(Completing(p.approval, found.value.0, found.value.1));
  }

  method LogIn(s: Store, next: Id, now: nat, p: Proc, c: Cmd) returns (r: Result<Reply>, carry: Option<Proc>)
    requires c.SignIn?
    modifies s
    ensures var h := ProcHop(old(s.View()), next, now, p, c); Does(old(s.Now()), s.Now(), r, h.txn) && carry == h.then_
  {
    hide After;
    if !p.Authorizing? {
      return Failure(InvalidRequest), None;
    }
    var client := p.approval.client;
    var outcome := s.Authenticate(client, UserKey(client.pool, c.name), c.password);
    if outcome.Failure? {
      return Failure(outcome.error), None;
    }
    match outcome.value {
      case SignedInAs(u) => r, carry := Success(Done), Some(SignedIn(p.approval, u));
      case MustChangePassword(u) =>
        var session := s.CreateChallenge(next, now, client, u);
        r, carry := Success(Challenged(session)), None;
    }
  }

  method AnswerLogIn(s: Store, now: nat, p: Proc, c: Cmd, ghost next: Id)
    returns (r: Result<Reply>, carry: Option<Proc>)
    requires c.AnswerChallenge? && Keyed(s.users)
    modifies s
    ensures var h := ProcHop(old(s.View()), next, now, p, c); Does(old(s.Now()), s.Now(), r, h.txn) && carry == h.then_
  {
    hide After;
    hide AnswerTxn;
    if !p.Authorizing? {
      return Failure(InvalidRequest), None;
    }
    var u := TakeAnswer(s, now, p.approval.client, NewPasswordRequired, c.session, c.password, c.conforms);
    if u.Failure? {
      return Failure(u.error), None;
    }
    r, carry := Success(Done), Some(SignedIn(p.approval, u.value));
  }

  method OpenSession(s: Store, next: Id, now: nat, p: Proc, c: Cmd) returns (r: Result<Reply>, carry: Option<Proc>)
    requires c.StartSession?
    modifies s
    ensures var h := ProcHop(old(s.View()), next, now, p, c); Does(old(s.Now()), s.Now(), r, h.txn) && carry == h.then_
  {
    hide After;
    if !p.SignedIn? {
      return Failure(InvalidRequest), None;
    }
    var _ := s.CreateSession(next, now, p.user, Seconds(now));
    r, carry := Success(Done), Some(Completing(p.approval, p.user, Seconds(now)));
  }

  /** Ends a login: an authorization code, or tokens at once in the implicit flow. */
  method Finish(s: Store, next: Id, now: nat, a: Approval, u: User, authTime: int) returns (r: Result<Reply>)
    modifies s
    ensures Does(old(s.Now()), s.Now(), r, CompleteTxn(next, now, a, u, authTime))
  {
    hide After;
    hide CognitoService.IssueTokens;
    if a.implicit {
      var opts := IssueOpts(a.scopes, a.nonce, authTime, OPENID in a.scopes, NewFamily(false, FromImplicit));
      var ts := s.IssueTokens(next, now, a.client, u, opts);
      NothingBefore(CognitoService.IssueTokens(next, now, a.client, u, opts).events);
      r := Success(Issued(ts));
    } else {
      var code := s.CreateCode(next, now, a.client.pool, a, u, authTime);
      r := Success(CodeReply(code));
    }
  }

  /** The token endpoint's code exchange. Refusals travel inside a committed transaction. */
  method Exchange(s: Store, next: Id, now: nat, client: Client, code: Id, redirectUri: string, v: Option<Verifier>)
    returns (r: Result<Reply>)
    modifies s
    ensures Does(old(s.Now()), s.Now(), r, ExchangeCodeTxn(old(s.View()), next, now, client, code, redirectUri, v))
  {
    hide After;
    hide CognitoService.IssueTokens;
    hide Words;
    var taken := Take(s, now, code);
    if taken.None? {
      return Success(InvalidGrant);
    }
    var row := taken.value;
    if row.client != client.id || row.redirectUri != redirectUri || !PkceHolds(row, v) {
      return Success(InvalidGrant);
    }
    if client.pool !in s.pools {
      return Failure(ResourceNotFound);
    }
    var k := UserKey(client.pool, row.owner.name);
    if k !in s.users || !s.users[k].enabled {
      return Success(InvalidGrant);
    }
    var scopes := Words(row.scope);
    var opts := IssueOpts(scopes, row.nonce, row.authTime, OPENID in scopes, NewFamily(true, FromCode(code)));
    ghost var u := s.users[k];
    var ts := s.IssueTokens(next, now, client, s.users[k], opts);
    AfterConcat(old(s.Now()), [CodeTaken(code)], CognitoService.IssueTokens(next, now, client, u, opts).events);
    r := Success(Issued(ts));
  }

  /** Taking a code writes to no table but that of the codes. */
  method Take(s: Store, now: nat, code: Id) returns (r: Option<CodeRow>)
    modifies s
    ensures Does(old(s.Now()), s.Now(), Success(r), TakeCode(old(s.View()), now, code))
    ensures s.pools == old(s.pools) && s.users == old(s.users)
  {
    AfterNone(s.Now());
    AfterOne(s.Now(), CodeTaken(code));
    r := s.TakeCode(now, code);
  }

  /** The client-credentials grant signs a token for the client itself. */
  method GrantToClient(s: Store, next: Id, now: nat, client: Client, scope: Option<string>) returns (r: Result<Reply>)
    modifies s
    ensures Does(old(s.Now()), s.Now(), r, CredentialsTxn(next, now, client, scope))
  {
    hide Words;
    hide Join;
    if client.secret.None? {
      return Failure(InvalidClient);
    }
    if !client.oauthEnabled || CredentialsFlow !in client.oauthFlows {
      return Failure(UnauthorizedClient);
    }
    var allowed := WithSlash(client.scopes);
    var scopes := allowed;
    if scope.Some? {
      scopes := Words(scope.value);
    }
    var ok := AllAllowed(scopes, allowed);
    if scopes == [] || !ok {
      return Failure(InvalidScope);
    }
    var iat := Seconds(now);
    var t := ClientAccess(next, client.pool, client.id, Join(scopes), iat, iat + client.accessTtl);
    s.signed := s.signed + {t};
    EffectOne(s.View(), Minted(t));
    assert MintedIn([Minted(t)]) == {t};
    r := Success(ClientTokenReply(t));
  }

  /** What a token-endpoint request of an authenticated client decides. */
  ghost function TokenTxn(db: Tables, next: Id, now: nat, client: Client, c: Cmd): Txn<Reply>
    requires IsTokenRequest(c)
  {
    match c
    case ExchangeCode(_, code, uri, v) =>
      if !client.oauthEnabled || CodeFlow !in client.oauthFlows then Err(UnauthorizedClient)
      else ExchangeCodeTxn(db, next, now, client, code, uri, v)
    case ExchangeRefresh(_, t) => Reissue(CognitoService.Refresh(db, next, now, client, t), [])
    case ExchangeCredentials(_, scope) => CredentialsTxn(next, now, client, scope)
    case Revoke(_, t) => Quiet(RevokeRefresh(db, client, t))
  }

  lemma {:induction false} TokenHop(db: Tables, next: Id, now: nat, client: Client, c: Cmd)
    requires IsTokenRequest(c)
    ensures ProcHop(db, next, now, ClientReady(client), c) == Hop(TokenTxn(db, next, now, client, c), None)
  {
    hide ExchangeCodeTxn;
    hide CredentialsTxn;
    hide CognitoService.Refresh;
    hide CognitoService.RevokeRefresh;
  }

  method TokenRequest(s: Store, next: Id, now: nat, client: Client, c: Cmd) returns (r: Result<Reply>)
    requires IsTokenRequest(c)
    modifies s
    ensures Does(old(s.Now()), s.Now(), r, TokenTxn(old(s.View()), next, now, client, c))
  {
    hide After;
    hide Does;
    hide ExchangeCodeTxn;
    hide CognitoService.Refresh;
    hide CredentialsTxn;
    hide CognitoService.RevokeRefresh;
    hide Quiet;
    hide Reissue;
    match c {
      case ExchangeCode(_, code, uri, v) =>
        if !client.oauthEnabled || CodeFlow !in client.oauthFlows {
          r := Refuse(s, UnauthorizedClient);
          return;
        }
        r := Exchange(s, next, now, client, code, uri, v);
      case ExchangeRefresh(_, t) => r := Reissued(s, next, now, client, t);
      case ExchangeCredentials(_, scope) => r := GrantToClient(s, next, now, client, scope);
      case Revoke(_, t) => r := RevokeAtEndpoint(s, client, t);
    }
  }

  method Refuse(s: Store, e: Error) returns (r: Result<Reply>)
    ensures Does(s.Now(), s.Now(), r, Err(e))
  {
    r := Failure(e);
  }

  method RevokeAtEndpoint(s: Store, client: Client, t: Id) returns (r: Result<Reply>)
    modifies s
    ensures Does(old(s.Now()), s.Now(), r, Quiet(RevokeRefresh(old(s.View()), client, t)))
  {
    hide After;
    hide CognitoService.RevokeRefresh;
    var q := s.RevokeRefresh(client, t);
    r := Quieted(q);
  }

  predicate IsTokenRequest(c: Cmd) { c.ExchangeCode? || c.ExchangeRefresh? || c.ExchangeCredentials? || c.Revoke? }

  /** One more step of a request in progress. */
  method GoOn(s: Store, next: Id, now: nat, p: Proc, c: Cmd) returns (r: Result<Reply>, carry: Option<Proc>)
    requires !IsApi(c) && !c.Prepare? && !c.ClientAuth? && Keyed(s.users)
    modifies s
    ensures var h := ProcHop(old(s.View()), next, now, p, c); Does(old(s.Now()), s.Now(), r, h.txn) && carry == h.then_
  {
    hide After;
    hide ExchangeCodeTxn;
    hide CredentialsTxn;
    hide CompleteTxn;
    carry := None;
    if IsTokenRequest(c) {
      if !p.ClientReady? {
        return Failure(InvalidRequest), None;
      }
      TokenHop(s.View(), next, now, p.client, c);
      r := TokenRequest(s, next, now, p.client, c);
    } else {
      r, carry := LoginStep(s, next, now, p, c);
    }
  }

  method LoginStep(s: Store, next: Id, now: nat, p: Proc, c: Cmd) returns (r: Result<Reply>, carry: Option<Proc>)
    requires c.ResumeSession? || c.SignIn? || c.AnswerChallenge? || c.StartSession? || c.Complete?
    requires Keyed(s.users)
    modifies s
    ensures var h := ProcHop(old(s.View()), next, now, p, c); Does(old(s.Now()), s.Now(), r, h.txn) && carry == h.then_
  {
    hide After;
    hide CompleteTxn;
    carry := None;
    match c {
      case ResumeSession(_, _) => r, carry := Resume(s, now, p, c, next);
      case SignIn(_, _, _) => r, carry := LogIn(s, next, now, p, c);
      case AnswerChallenge(_, _, _, _) => r, carry := AnswerLogIn(s, now, p, c, next);
      case StartSession(_) => r, carry := OpenSession(s, next, now, p, c);
      case Complete(_) =>
        if !p.Completing? {
          return Failure(InvalidRequest), None;
        }
        r := Finish(s, next, now, p.approval, p.user, p.authTime);
    }
  }

  // ---- The server ----

  class Server {
    const store: Store
    /** The first identifier not yet drawn. */
    var next: Id
    /** The requests between two of their transactions. */
    var procs: map<Id, Proc>
    /** What was committed so far. */
    ghost var log: seq<Event>

    ghost function State(): World
      reads this, store
    {
      World(store.View(), log, next, procs)
    }

    ghost predicate Valid()
      reads this, store
    {
      Keyed(store.users) && SignedIs(store.signed, log)
    }

    constructor ()
      ensures Valid() && State() == START && fresh(store)
    {
      store := new Store();
      next, procs, log := 0, map[], [];
    }

    /** The end of `run`: a transaction that succeeded stands, one that failed is undone. */
    method Settle(saved: Snapshot, r: Result<Reply>, ghost t: Txn<Reply>) returns (a: Answer)
      requires Does(saved, store.Now(), r, t) && Keyed(saved.db.users) && SignedIs(saved.signed, log)
      modifies this, store
      ensures Valid() && procs == old(procs) && a == AnswerTo(t)
      ensures t.Ok? ==> store.View() == EffectAll(saved.db, t.events)
      ensures t.Ok? ==> log == old(log) + t.events && next == old(next) + STRIDE
      ensures t.Err? ==> store.Now() == saved && log == old(log) && next == old(next)
    {
      if r.Failure? {
        store.Rollback(saved);
        a := Failed(r.error);
      } else {
        KeyedKept(saved.db, t.events);
        SignedGrows(saved.signed, log, t.events);
        log := log + t.events;
        next := next + STRIDE;
        a := Replied(r.value);
      }
    }

    method HandleApi(now: nat, c: Cmd) returns (a: Answer)
      requires Valid() && IsApi(c)
      modifies this, store
      ensures Valid() && (State(), a) == Step(old(State()), now, c)
    {
      hide ApiTxn;
      hide EntryHop;
      hide ProcHop;
      hide Keyed;
      hide SignedIs;
      ghost var w := State();
      var saved := store.Begin();
      var r := Api(store, next, now, c, w);
      a := Settle(saved, r, ApiTxn(w, now, c));
    }

    method HandleEntry(now: nat, c: Cmd) returns (a: Answer)
      requires Valid() && (c.Prepare? || c.ClientAuth?)
      modifies this, store
      ensures Valid() && (State(), a) == Step(old(State()), now, c)
    {
      hide EntryHop;
      hide ApiTxn;
      hide ProcHop;
      hide Keyed;
      hide SignedIs;
      var pid := next + STRIDE - 1;
      var saved := store.Begin();
      ghost var h := EntryHop(store.View(), c);
      var r, carry := Enter(store, c);
      a := Settle(saved, r, h.txn);
      procs := if r.Success? && carry.Some? then procs[pid := carry.value] else procs - {pid};
      if r.Success? {
        a := Replied(Proceed(pid));
      }
    }

    method HandleNext(now: nat, c: Cmd) returns (a: Answer)
      requires Valid() && !IsApi(c) && !c.Prepare? && !c.ClientAuth?
      modifies this, store
      ensures Valid() && (State(), a) == Step(old(State()), now, c)
    {
      hide ProcHop;
      hide ApiTxn;
      hide EntryHop;
      hide Keyed;
      hide SignedIs;
      if c.proc !in procs {
        return Failed(InvalidRequest);
      }
      var saved := store.Begin();
      ghost var h := ProcHop(store.View(), next, now, procs[c.proc], c);
      var r, carry := GoOn(store, next, now, procs[c.proc], c);
      a := Settle(saved, r, h.txn);
      procs := if r.Success? && carry.Some? then procs[c.proc := carry.value] else procs - {c.proc};
    }

    /** One command, as one transaction. */
    method Handle(now: nat, c: Cmd) returns (a: Answer)
      requires Valid()
      modifies this, store
      ensures Valid() && (State(), a) == Step(old(State()), now, c)
    {
      hide Step;
      if IsApi(c) {
        a := HandleApi(now, c);
      } else if c.Prepare? || c.ClientAuth? {
        a := HandleEntry(now, c);
      } else {
        a := HandleNext(now, c);
      }
    }

    /** Whether an access token is accepted now. */
    method Accepts(t: Token, now: nat) returns (yes: bool)
      requires Valid() && CognitoTheorems.Reached(State())
      ensures yes <==> exists family, i :: Honoured(State(), t, family, i, now)
    {
      var r := store.ValidateAccess(t, now);
      yes := r.Success?;
      AcceptedIsHonoured(State(), t, now);
    }
  }

  lemma {:induction false} SignedGrows(signed: set<Token>, log: seq<Event>, es: seq<Event>)
    requires SignedIs(signed, log)
    ensures SignedIs(signed + MintedIn(es), log + es)
  {
    forall t
      ensures t in signed + MintedIn(es) <==> Minted(t) in log + es
    {
      assert t in MintedIn(es) <==> Minted(t) in es;
    }
  }

  /** The token was minted in a family, has not expired, its pool and enabled user exist, and nothing since ended the
      family. */
  ghost predicate Honoured(w: World, t: Token, family: nat, i: nat, now: nat) {
    && family < i < |w.log| && w.log[i] == Minted(t) && t.Access? && CognitoLog.FamilyOf(w.log[family], t)
    && Seconds(now) <= t.exp && t.owner.pool in w.db.pools && t.owner in w.db.users && w.db.users[t.owner].enabled
    && Unharmed(w.log, i + 1, CognitoLog.FamilyGrant(w.log[family]))
  }

  lemma {:induction false} AcceptedIsHonoured(w: World, t: Token, now: nat)
    requires CognitoTheorems.Reached(w)
    ensures ValidateAccess(w.db, Minted(t) in w.log, t, now).Ok? <==> exists family, i :: Honoured(w, t, family, i, now)
  {
    hide CognitoLog.FamilyOf;
    if ValidateAccess(w.db, Minted(t) in w.log, t, now).Ok? {
      var i :| 0 <= i < |w.log| && w.log[i] == Minted(t);
      var family := CognitoTheorems.AccessTokenFate(w, i, now);
      assert Honoured(w, t, family, i, now);
    }
    if family, i :| Honoured(w, t, family, i, now) {
      var f := CognitoTheorems.AccessTokenFate(w, i, now);
      CognitoTheorems.ReachedInv(w);
      FamilyIsOne(w.log, f, family, t);
    }
  }

  lemma {:induction false} FamilyIsOne(log: seq<Event>, f: nat, g: nat, t: Token)
    requires OrderlyLog(log) && f < |log| && g < |log|
    requires CognitoLog.FamilyOf(log[f], t) && CognitoLog.FamilyOf(log[g], t)
    ensures f == g
  {
    CognitoTheorems.OriginOnce(log, f, g);
  }

  /** PROGRAM. Whatever commands arrive, in whatever order and at whatever times, the program's tables, signed tokens,
      requests in progress and answers are those of the state machine's run. */
  method Serve(steps: seq<Timed>) returns (server: Server, answers: seq<Answer>)
    ensures fresh(server) && fresh(server.store) && server.Valid() && server.State() == Run(steps)
    ensures server.store.signed == set e | e in Run(steps).log && e.Minted? :: e.token
    ensures |answers| == |steps|
    ensures forall i :: 0 <= i < |steps| ==> answers[i] == Step(Run(steps[..i]), steps[i].now, steps[i].cmd).1
  {
    hide Step;
    server := new Server();
    answers := [];
    while |answers| < |steps|
      invariant fresh(server) && fresh(server.store) && server.Valid()
      invariant |answers| <= |steps| && server.State() == Run(steps[..|answers|])
      invariant forall i :: 0 <= i < |answers| ==> answers[i] == Step(Run(steps[..i]), steps[i].now, steps[i].cmd).1
    {
      var i := |answers|;
      assert steps[..i + 1][..i] == steps[..i];
      var a := server.Handle(steps[i].now, steps[i].cmd);
      answers := answers + [a];
    }
    assert steps[..|answers|] == steps;
    SignedSet(server.store.signed, server.log);
  }

  lemma {:induction false} SignedSet(signed: set<Token>, log: seq<Event>)
    requires SignedIs(signed, log)
    ensures signed == set e | e in log && e.Minted? :: e.token
  {
    forall t
      ensures t in signed <==> t in (set e | e in log && e.Minted? :: e.token)
    {
      assert t in signed <==> Minted(t) in log;
    }
  }
}
