/** The invariant of the whole server, and that every run keeps it. */
module CognitoInvariant {
  import opened Options
  import opened Text
  import opened CognitoTables
  import opened CognitoGrants
  import opened CognitoService
  import opened CognitoLog
  import opened CognitoServer
  import opened CognitoGrowth
  import opened CognitoSteps

  /** A request in progress holds what an earlier transaction really read. */
  ghost predicate ProcFits(log: seq<Event>, p: Proc) {
    match p
    case Authorizing(a) => Approved(a) in log
    case SignedIn(a, u) => Approved(a) in log && u.key.pool == a.client.pool && SubKnown(log, u.sub)
    case Completing(a, u, _) => Approved(a) in log && u.key.pool == a.client.pool && SubKnown(log, u.sub)
    case ClientReady(c) => ClientSaved(c) in log
  }

  ghost predicate Inv(w: World) {
    && Good(w.log, w.next)
    && w.db == Replay(w.log)
    && forall pid :: pid in w.procs ==> ProcFits(w.log, w.procs[pid])
  }

  lemma {:induction false} PoolCmdSound(log: seq<Event>, next: Id, db: Tables, c: Cmd)
    requires Ready(log, next, db) && (c.CreatePool? || c.UpdatePool? || c.DeletePool?)
    ensures Keeps(log, next, DirectoryTxn(db, next, c))
  {
    match c
    case CreatePool(settings) => PoolsSound(log, next, db, 0, settings);
    case UpdatePool(p, settings) => PoolsSound(log, next, db, p, settings);
    case DeletePool(p) => PoolsSound(log, next, db, p, Pool([], [], false, false));
  }

  lemma {:induction false} ClientCmdSound(log: seq<Event>, next: Id, db: Tables, c: Cmd)
    requires Ready(log, next, db) && (c.CreateClient? || c.UpdateClient? || c.DeleteClient?)
    ensures Keeps(log, next, DirectoryTxn(db, next, c))
  {
    match c
    case CreateClient(settings) => CreateClientSound(log, next, db, settings);
    case UpdateClient(p, settings) => UpdateClientSound(log, next, db, p, settings);
    case DeleteClient(p, cl) => GrowOne(log, next, ClientDeleted(cl));
  }

  lemma {:induction false} DirectorySound(log: seq<Event>, next: Id, db: Tables, c: Cmd)
    requires Ready(log, next, db) && IsDirectory(c)
    ensures Keeps(log, next, DirectoryTxn(db, next, c))
  {
    if c.CreatePool? || c.UpdatePool? || c.DeletePool? {
      PoolCmdSound(log, next, db, c);
    } else {
      ClientCmdSound(log, next, db, c);
    }
  }

  lemma {:induction false} SetPasswordSound(log: seq<Event>, next: Id, db: Tables, c: Cmd)
    requires Ready(log, next, db) && c.AdminSetPassword?
    ensures Keeps(log, next, SetPasswordTxn(db, c))
  {
    FactsHold(log);
    if c.owner in db.users {
      PasswordSound(log, next, db, db.users[c.owner], c.password, c.permanent, c.conforms);
    }
  }

  lemma {:induction false} UpdateAttributesSound(log: seq<Event>, next: Id, db: Tables, k: UserKey,
                                                 attrs: seq<(string, string)>)
    requires Ready(log, next, db)
    ensures Keeps(log, next, UpdateAttributesTxn(db, k, attrs))
  {
    FactsHold(log);
    if k in db.users {
      GrowNone(log, next);
      assert log + [] == log;
      UpdateSound(log, next, [], db, db.users[k], attrs);
      var t := UpdateAttributes(db, db.pools[k.pool], db.users[k], attrs);
      assert t.Ok? ==> [] + t.events == t.events;
    }
  }

  lemma {:induction false} UserAdminTxnSound(log: seq<Event>, next: Id, db: Tables, now: nat, c: Cmd)
    requires Ready(log, next, db) && IsUserAdmin(c)
    ensures Keeps(log, next, UserAdminTxn(db, next, now, c))
  {
    match c
    case AdminCreateUser(_, _, _, _, _, _, _) =>
      if c.pool in db.pools {
        CreateUserSound(log, next, db, c.pool, NewUser(c.login, c.attrs, Some(c.password), FORCE_CHANGE_PASSWORD), c.taken);
      }
    case AdminSetEnabled(k, enable) => UserAdminSound(log, next, db, now, k, enable, []);
    case AdminDeleteUser(k) => UserAdminSound(log, next, db, now, k, true, []);
    case AdminSetPassword(_, _, _, _) => SetPasswordSound(log, next, db, c);
    case AdminSignOut(k) => UserAdminSound(log, next, db, now, k, true, []);
    case AdminUpdateAttributes(k, attrs) => UpdateAttributesSound(log, next, db, k, attrs);
    case AdminDeleteAttributes(k, names) => UserAdminSound(log, next, db, now, k, true, names);
    case AdminConfirm(k) => UserAdminSound(log, next, db, now, k, true, []);
    case AdminResetPassword(k, code) => ResetSound(log, next, db, now, k, code);
  }

  lemma {:induction false} InitiateRefreshSound(log: seq<Event>, next: Id, db: Tables, now: nat, c: Cmd)
    requires Ready(log, next, db) && c.InitiateRefresh?
    ensures Keeps(log, next, InitiateRefreshTxn(db, next, now, c))
  {
    FactsHold(log);
    if c.client in db.clients {
      ClientInLog(log, db, c.client);
      RefreshSound(log, next, db, now, db.clients[c.client], c.token);
      var t := CognitoService.Refresh(db, next, now, db.clients[c.client], c.token);
      assert t.Ok? ==> [] + t.events == t.events;
    }
  }

  lemma {:induction false} SelfServiceSound(w: World, now: nat, c: Cmd)
    requires Inv(w) && IsSelfService(c)
    ensures Keeps(w.log, w.next, SelfServiceTxn(w, now, c))
  {
    if c.ConfirmSignUp? || c.SendCode? || c.ConfirmForgotPassword? {
      ConfirmationSound(w, now, c);
    } else if c.SignUp? || c.RevokeToken? || c.Logout? {
      AccountSound(w, now, c);
    } else {
      SignInTxnSound(w, now, c);
    }
  }

  lemma {:induction false} ConfirmationSound(w: World, now: nat, c: Cmd)
    requires Inv(w) && (c.ConfirmSignUp? || c.SendCode? || c.ConfirmForgotPassword?)
    ensures Keeps(w.log, w.next, SelfServiceTxn(w, now, c))
  {
    if c.ConfirmSignUp? {
      ConfirmSignUpSound(w.log, w.next, w.db, now, c);
    } else if c.SendCode? {
      SendSound(w.log, w.next, w.db, now, c);
    } else {
      ConfirmForgotSound(w.log, w.next, w.db, now, c);
    }
  }

  lemma {:induction false} AccountSound(w: World, now: nat, c: Cmd)
    requires Inv(w) && (c.SignUp? || c.RevokeToken? || c.Logout?)
    ensures Keeps(w.log, w.next, SelfServiceTxn(w, now, c))
  {
    if c.SignUp? {
      SignUpSound(w.log, w.next, w.db, now, c);
    } else if c.RevokeToken? {
      RevokeTokenSound(w.log, w.next, w.db, c);
    } else {
      GrowOne(w.log, w.next, SessionEnded(c.session));
    }
  }

  lemma {:induction false} SignInTxnSound(w: World, now: nat, c: Cmd)
    requires Inv(w)
    requires c.InitiateAuth? || c.InitiateRefresh? || c.RespondToChallenge? || c.GetUserByToken? || c.SignOutByToken?
             || c.ChangePassword?
    ensures Keeps(w.log, w.next, SelfServiceTxn(w, now, c))
  {
    var log, next, db := w.log, w.next, w.db;
    match c
    case InitiateAuth(_, _, _, _) => InitiateAuthSound(log, next, db, now, c);
    case InitiateRefresh(_, _, _) => InitiateRefreshSound(log, next, db, now, c);
    case RespondToChallenge(_, _, _, _, _, _, _) => RespondSound(log, next, db, now, c);
    case GetUserByToken(t) => GrowNone(log, next);
    case SignOutByToken(t) => SignOutByTokenSound(w, now, c);
    case ChangePassword(_, _, _, _) => ChangePasswordSound(w, now, c);
  }

  lemma {:induction false} SignOutByTokenSound(w: World, now: nat, c: Cmd)
    requires Inv(w) && c.SignOutByToken?
    ensures Keeps(w.log, w.next, SignOutByTokenTxn(w, now, c.access))
  {
    if c.access.Access? && c.access.owner in w.db.users {
      GrowOne(w.log, w.next, SignedOut(w.db.users[c.access.owner].key, now));
    }
  }

  lemma {:induction false} ChangePasswordSound(w: World, now: nat, c: Cmd)
    requires Inv(w) && c.ChangePassword?
    ensures Keeps(w.log, w.next, ChangePasswordTxn(w, now, c))
  {
    FactsHold(w.log);
    if c.access.Access? && c.access.owner in w.db.users {
      PasswordSound(w.log, w.next, w.db, w.db.users[c.access.owner], c.password, true, c.conforms);
    }
  }

  lemma {:induction false} RevokeSound(log: seq<Event>, next: Id, db: Tables, client: Client, r: Id)
    requires Ready(log, next, db)
    ensures Keeps(log, next, RevokeRefresh(db, client, r))
  {
    GrowNone(log, next);
    if r in db.refresh {
      GrowOne(log, next, RefreshRevoked(r));
    }
  }

  lemma {:induction false} RevokeTokenSound(log: seq<Event>, next: Id, db: Tables, c: Cmd)
    requires Ready(log, next, db) && c.RevokeToken?
    ensures Keeps(log, next, RevokeTokenTxn(db, c))
  {
    if c.client in db.clients {
      RevokeSound(log, next, db, db.clients[c.client], c.token);
    }
  }

  // ---- Hosted UI and token endpoint ----

  lemma {:induction false} PrepareSound(log: seq<Event>, next: Id, db: Tables, c: Id, q: Query)
    requires Ready(log, next, db)
    ensures Keeps(log, next, PrepareTxn(db, c, q))
  {
    FactsHold(log);
    var t := PrepareTxn(db, c, q);
    if t.Ok? {
      ClientInLog(log, db, c);
      GrowOne(log, next, Approved(t.value));
    }
  }

  lemma {:induction false} CompleteSound(log: seq<Event>, next: Id, db: Tables, now: nat, a: Approval, u: User,
                                         authTime: int)
    requires Ready(log, next, db) && Approved(a) in log && u.key.pool == a.client.pool && SubKnown(log, u.sub)
    ensures Keeps(log, next, CompleteTxn(next, now, a, u, authTime))
  {
    FactsHold(log);
    if a.implicit {
      ApprovedClient(log, a);
      SavedIsKnown(log, a.client);
      GrowNone(log, next);
      assert log + [] == log;
      var opts := IssueOpts(a.scopes, a.nonce, authTime, OPENID in a.scopes, NewFamily(false, FromImplicit));
      IssueSound(log, next, now, [], a.client, u, opts);
    } else {
      var e := CreateCode(next, now, a.client.pool, a, u, authTime).events[0];
      var j :| 0 <= j < |log| && log[j] == Approved(a);
      assert Records(log[j], e.code);
      GrowOne(log, next, e);
    }
  }

  /** The code a client presents was issued to it in its own pool. */
  lemma {:induction false} CodeOwner(log: seq<Event>, db: Tables, client: Client, code: Id)
    requires SoundLog(log) && Facts(log) && db == Replay(log)
    requires ClientSaved(client) in log && code in db.codes && db.codes[code].client == client.id
    ensures db.codes[code].owner.pool == client.pool
  {
    var row := db.codes[code];
    var j: nat :| j < |log| && StartsCode(log[j], code, row);
    assert SoundHere(log, j);
    var i :| 0 <= i < j && Records(log[..j][i], log[j].code);
    assert log[i] == log[..j][i];
    var a := log[i].approval;
    ApprovedClient(log, a);
    SavedIsKnown(log, a.client);
    PoolOfClient(log, client, a.client.pool);
  }

  lemma {:induction false} ExchangeSound(log: seq<Event>, next: Id, db: Tables, now: nat, client: Client, code: Id,
                                         redirectUri: string, v: Option<Verifier>)
    requires Ready(log, next, db) && ClientSaved(client) in log
    ensures Keeps(log, next, ExchangeCodeTxn(db, next, now, client, code, redirectUri, v))
  {
    FactsHold(log);
    GrowNone(log, next);
    if code in db.codes {
      GrowOne(log, next, CodeTaken(code));
    }
    var t := ExchangeCodeTxn(db, next, now, client, code, redirectUri, v);
    if t.Ok? && t.value.Issued? {
      var row := db.codes[code];
      CodeOwner(log, db, client, code);
      RedeemSound(log, next, db, now, client, code, row);
    }
  }

  lemma {:induction false} RedeemSound(log: seq<Event>, next: Id, db: Tables, now: nat, client: Client, code: Id,
                                       row: CodeRow)
    requires Ready(log, next, db) && ClientSaved(client) in log && Grows(log, next, [CodeTaken(code)])
    requires code in db.codes && db.codes[code] == row && !row.used && row.client == client.id
    requires row.owner.pool == client.pool && row.owner in db.users
    ensures var scopes := Words(row.scope);
            var opts := IssueOpts(scopes, row.nonce, row.authTime, OPENID in scopes, NewFamily(true, FromCode(code)));
            Grows(log, next, [CodeTaken(code)] + IssueTokens(next, now, client, db.users[row.owner], opts).events)
  {
    FactsHold(log);
    var scopes := Words(row.scope);
    var opts := IssueOpts(scopes, row.nonce, row.authTime, OPENID in scopes, NewFamily(true, FromCode(code)));
    var pre := [CodeTaken(code)];
    WordsStable(row.scope);
    SavedIsKnown(log, client);
    KnownLater(log, pre, client.id, client.pool);
    assert (log + pre)[..|log + pre| - 1] == log;
    ReplayStep(log, CodeTaken(code));
    KnownStill(log, pre, db.users[row.owner].sub);
    IssueSound(log, next, now, pre, client, db.users[row.owner], opts);
  }

  lemma {:induction false} CredentialsSound(log: seq<Event>, next: Id, now: nat, client: Client, scope: Option<string>)
    requires Good(log, next)
    ensures Keeps(log, next, CredentialsTxn(next, now, client, scope))
  {
    var t := CredentialsTxn(next, now, client, scope);
    if t.Ok? {
      GrowOne(log, next, t.events[0]);
    }
  }

  ghost predicate HopFits(log: seq<Event>, next: Id, h: Hop) {
    && Keeps(log, next, h.txn)
    && (h.txn.Ok? && h.then_.Some? ==> ProcFits(log + h.txn.events, h.then_.value))
  }

  lemma {:induction false} PrepareHopSound(log: seq<Event>, next: Id, db: Tables, c: Cmd)
    requires Ready(log, next, db) && c.Prepare?
    ensures HopFits(log, next, EntryHop(db, c))
  {
    PrepareSound(log, next, db, c.client, c.query);
    var t := PrepareTxn(db, c.client, c.query);
    assert t.Ok? ==> (log + t.events)[|log|] == Approved(t.value);
  }

  lemma {:induction false} ClientAuthSound(log: seq<Event>, next: Id, db: Tables, c: Cmd)
    requires Ready(log, next, db) && c.ClientAuth?
    ensures HopFits(log, next, EntryHop(db, c))
  {
    FactsHold(log);
    GrowNone(log, next);
    if c.client in db.clients {
      ClientInLog(log, db, c.client);
    }
  }

  lemma {:induction false} ResumeSound(log: seq<Event>, next: Id, db: Tables, now: nat, p: Proc, c: Cmd)
    requires Ready(log, next, db) && ProcFits(log, p) && c.ResumeSession?
    ensures HopFits(log, next, ProcHop(db, next, now, p, c))
  {
    FactsHold(log);
    GrowNone(log, next);
  }

  lemma {:induction false} SignInSound(log: seq<Event>, next: Id, db: Tables, now: nat, p: Proc, c: Cmd)
    requires Ready(log, next, db) && ProcFits(log, p) && c.SignIn?
    ensures HopFits(log, next, ProcHop(db, next, now, p, c))
  {
    FactsHold(log);
    GrowNone(log, next);
    if p.Authorizing? {
      var t := SignInTxn(db, next, now, p.approval.client, c.name, c.password);
      if t.Ok? {
        ChallengeSound(log, next, now, p.approval.client, t.value.user);
      }
    }
  }

  lemma {:induction false} AnswerHopSound(log: seq<Event>, next: Id, db: Tables, now: nat, p: Proc, c: Cmd)
    requires Ready(log, next, db) && ProcFits(log, p) && c.AnswerChallenge?
    ensures HopFits(log, next, ProcHop(db, next, now, p, c))
  {
    if p.Authorizing? {
      AnswerSound(log, next, db, now, p.approval.client, NewPasswordRequired, c.session, c.password, c.conforms);
    }
  }

  lemma {:induction false} StartSound(log: seq<Event>, next: Id, db: Tables, now: nat, p: Proc, c: Cmd)
    requires Ready(log, next, db) && ProcFits(log, p) && c.StartSession?
    ensures HopFits(log, next, ProcHop(db, next, now, p, c))
  {
    if p.SignedIn? {
      GrowOne(log, next, CreateSession(next, now, p.user, Seconds(now)).events[0]);
    }
  }

  lemma {:induction false} CompleteHopSound(log: seq<Event>, next: Id, db: Tables, now: nat, p: Proc, c: Cmd)
    requires Ready(log, next, db) && ProcFits(log, p) && c.Complete?
    ensures HopFits(log, next, ProcHop(db, next, now, p, c))
  {
    if p.Completing? {
      CompleteSound(log, next, db, now, p.approval, p.user, p.authTime);
    }
  }

  lemma {:induction false} LoginHopSound(log: seq<Event>, next: Id, db: Tables, now: nat, p: Proc, c: Cmd)
    requires Ready(log, next, db) && ProcFits(log, p)
    requires c.ResumeSession? || c.SignIn? || c.AnswerChallenge? || c.StartSession? || c.Complete?
    ensures HopFits(log, next, ProcHop(db, next, now, p, c))
  {
    hide ProcHop;
    hide HopFits;
    hide Ready;
    hide ProcFits;
    match c
    case ResumeSession(_, _) => ResumeSound(log, next, db, now, p, c);
    case SignIn(_, _, _) => SignInSound(log, next, db, now, p, c);
    case AnswerChallenge(_, _, _, _) => AnswerHopSound(log, next, db, now, p, c);
    case StartSession(_) => StartSound(log, next, db, now, p, c);
    case Complete(_) => CompleteHopSound(log, next, db, now, p, c);
  }

  lemma {:induction false} ExchangeHopSound(log: seq<Event>, next: Id, db: Tables, now: nat, p: Proc, c: Cmd)
    requires Ready(log, next, db) && ProcFits(log, p) && c.ExchangeCode?
    ensures HopFits(log, next, ProcHop(db, next, now, p, c))
  {
    if p.ClientReady? {
      ExchangeSound(log, next, db, now, p.client, c.authCode, c.redirectUri, c.verifier);
    }
  }

  lemma {:induction false} RefreshHopSound(log: seq<Event>, next: Id, db: Tables, now: nat, p: Proc, c: Cmd)
    requires Ready(log, next, db) && ProcFits(log, p) && c.ExchangeRefresh?
    ensures HopFits(log, next, ProcHop(db, next, now, p, c))
  {
    if p.ClientReady? {
      RefreshSound(log, next, db, now, p.client, c.token);
      var t := CognitoService.Refresh(db, next, now, p.client, c.token);
      assert t.Ok? ==> [] + t.events == t.events;
    }
  }

  lemma {:induction false} OtherTokenHopSound(log: seq<Event>, next: Id, db: Tables, now: nat, p: Proc, c: Cmd)
    requires Ready(log, next, db) && ProcFits(log, p) && (c.ExchangeCredentials? || c.Revoke?)
    ensures HopFits(log, next, ProcHop(db, next, now, p, c))
  {
    hide CredentialsTxn;
    if p.ClientReady? {
      if c.ExchangeCredentials? {
        CredentialsSound(log, next, now, p.client, c.scope);
      } else {
        RevokeSound(log, next, db, p.client, c.token);
      }
    }
  }

  lemma {:induction false} CommitInv(w: World, es: seq<Event>)
    requires Inv(w) && Grows(w.log, w.next, es)
    ensures Inv(Commit(w, es))
  {
    ReplayAppend(w.log, es);
  }

  lemma {:induction false} LandInv(w: World, pid: Id, h: Hop)
    requires Inv(w) && HopFits(w.log, w.next, h)
    ensures Inv(Land(w, pid, h))
  {
    if h.txn.Ok? {
      CommitInv(w, h.txn.events);
    }
  }

  lemma {:induction false} ApiStepInv(w: World, now: nat, c: Cmd)
    requires Inv(w) && IsApi(c)
    ensures Inv(Step(w, now, c).0)
  {
    if IsDirectory(c) {
      DirectorySound(w.log, w.next, w.db, c);
    } else if IsUserAdmin(c) {
      UserAdminTxnSound(w.log, w.next, w.db, now, c);
    } else {
      SelfServiceSound(w, now, c);
    }
    var t := ApiTxn(w, now, c);
    if t.Ok? {
      CommitInv(w, t.events);
    }
  }

  lemma {:induction false} HopStepInv(w: World, now: nat, c: Cmd)
    requires Inv(w) && !IsApi(c) && !c.Prepare? && !c.ClientAuth?
    ensures Inv(Step(w, now, c).0)
  {
    if c.proc in w.procs {
      var p := w.procs[c.proc];
      if c.ExchangeCode? {
        ExchangeHopSound(w.log, w.next, w.db, now, p, c);
      } else if c.ExchangeRefresh? {
        RefreshHopSound(w.log, w.next, w.db, now, p, c);
      } else if c.ExchangeCredentials? || c.Revoke? {
        OtherTokenHopSound(w.log, w.next, w.db, now, p, c);
      } else {
        LoginHopSound(w.log, w.next, w.db, now, p, c);
      }
      LandInv(w, c.proc, ProcHop(w.db, w.next, now, p, c));
    }
  }

  lemma {:induction false} EntryFits(w: World, c: Cmd)
    requires Inv(w) && (c.Prepare? || c.ClientAuth?)
    ensures HopFits(w.log, w.next, EntryHop(w.db, c))
  {
    hide EntryHop;
    hide HopFits;
    if c.Prepare? {
      PrepareHopSound(w.log, w.next, w.db, c);
    } else {
      ClientAuthSound(w.log, w.next, w.db, c);
    }
  }

  lemma {:induction false} EntryStepInv(w: World, now: nat, c: Cmd)
    requires Inv(w) && (c.Prepare? || c.ClientAuth?)
    ensures Inv(Step(w, now, c).0)
  {
    hide Inv;
    hide EntryHop;
    hide HopFits;
    hide ApiTxn;
    hide ProcHop;
    hide Land;
    EntryFits(w, c);
    LandInv(w, w.next + STRIDE - 1, EntryHop(w.db, c));
  }

  /** INVARIANT. Every step, of any request at any time, keeps the invariant. */
  lemma {:induction false} StepInv(w: World, now: nat, c: Cmd)
    requires Inv(w)
    ensures Inv(Step(w, now, c).0)
  {
    hide Inv;
    hide Step;
    if IsApi(c) {
      ApiStepInv(w, now, c);
    } else if c.Prepare? || c.ClientAuth? {
      EntryStepInv(w, now, c);
    } else {
      HopStepInv(w, now, c);
    }
  }

  lemma {:induction false} RunInv(steps: seq<Timed>)
    ensures Inv(Run(steps))
  {
    if steps != [] {
      RunInv(steps[..|steps| - 1]);
      var last := steps[|steps| - 1];
      StepInv(Run(steps[..|steps| - 1]), last.now, last.cmd);
    }
  }
}
