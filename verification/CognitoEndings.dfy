/** Which requests end which grants: over every run a grant lives on exactly while no request that ends it has been
    answered, and a grant that has ended is of no use to any request for the rest of the run. */
module CognitoEndings {
  import opened Options
  import opened Text
  import opened CognitoTables
  import opened CognitoGrants
  import opened CognitoService
  import opened CognitoLog
  import opened CognitoServer
  import opened CognitoGrowth
  import opened CognitoInvariant
  import opened CognitoTheorems
  import opened CognitoRequests
  import opened CognitoSignIns

  /** The request, once answered, ends the grant. */
  predicate Ends(c: Cmd, g: Grant) {
    match c
    case DeletePool(p) => g.owner.pool == p
    case AdminDeleteUser(k) => g.owner == k
    case AdminSignOut(k) => g.owner == k && !g.Code? && !g.Challenge?
    case SignOutByToken(t) => t.Access? && g.owner == t.owner && !g.Code? && !g.Challenge?
    case AdminSetEnabled(k, enable) => !enable && g.Session? && g.owner == k
    case DeleteClient(_, cl) => g.Refresh? && g.client == cl
    case RevokeToken(_, _, r) => RevokedBy(r, g)
    case Revoke(_, r) => RevokedBy(r, g)
    case Logout(s) => g.Session? && g.id == s
    case ExchangeCode(_, code, _, _) => g.Code? && g.id == code
    case RespondToChallenge(_, _, _, session, _, _, _) => g.Challenge? && g.id == session
    case AnswerChallenge(_, session, _, _) => g.Challenge? && g.id == session
    case _ => false
  }

  /** A refresh token is revoked together with its family. */
  predicate RevokedBy(r: Id, g: Grant) {
    (g.Refresh? && g.token == r) || (g.Family? && g.refresh == Some(r))
  }

  // ---- What a step commits ----

  predicate Ending(e: Event) {
    e.PoolDeleted? || e.UserDeleted? || e.UserDisabled? || e.SignedOut? || e.ClientDeleted? || e.RefreshRevoked?
    || e.SessionEnded? || e.CodeTaken? || e.ChallengeTaken?
  }

  lemma {:induction false} KillsEnds(e: Event, g: Grant)
    requires Kills(e, g)
    ensures Ending(e)
  {
  }

  /** The one ending event an answered request commits, if any. */
  function EndingOf(db: Tables, now: nat, c: Cmd): Option<Event> {
    match c
    case DeletePool(p) => Some(PoolDeleted(p))
    case AdminDeleteUser(k) => Some(UserDeleted(k))
    case AdminSignOut(k) => Some(SignedOut(k, now))
    case SignOutByToken(t) => if t.Access? then Some(SignedOut(t.owner, now)) else None
    case AdminSetEnabled(k, enable) => if enable then None else Some(UserDisabled(k))
    case DeleteClient(_, cl) => Some(ClientDeleted(cl))
    case RevokeToken(_, _, r) => if r in db.refresh then Some(RefreshRevoked(r)) else None
    case Revoke(_, r) => if r in db.refresh then Some(RefreshRevoked(r)) else None
    case Logout(s) => Some(SessionEnded(s))
    case ExchangeCode(_, code, _, _) => if code in db.codes then Some(CodeTaken(code)) else None
    case RespondToChallenge(_, _, _, session, _, _, _) => Some(ChallengeTaken(session))
    case AnswerChallenge(_, session, _, _) => Some(ChallengeTaken(session))
    case _ => None
  }

  /** Of the ending events there is this one, or none. */
  ghost predicate EndsWith(es: seq<Event>, end: Option<Event>) {
    && (forall e :: e in es && Ending(e) ==> end == Some(e))
    && (end.Some? ==> end.value in es)
  }

  ghost predicate EndsRight<T(!new)>(t: Txn<T>, end: Option<Event>) { t.Ok? ==> EndsWith(t.events, end) }

  lemma {:induction false} IssueEndsNone(next: Id, now: nat, client: Client, u: User, opts: IssueOpts)
    ensures EndsWith(IssueTokens(next, now, client, u, opts).events, None)
  {
  }

  lemma {:induction false} EndsConcat(es: seq<Event>, es': seq<Event>, end: Option<Event>)
    requires EndsWith(es, end) && EndsWith(es', None)
    ensures EndsWith(es + es', end)
  {
  }

  lemma {:induction false} DirectoryEnds(db: Tables, next: Id, now: nat, c: Cmd)
    requires IsDirectory(c)
    ensures EndsRight(DirectoryTxn(db, next, c), EndingOf(db, now, c))
  {
  }

  lemma {:induction false} UserAdminEnds(db: Tables, next: Id, now: nat, c: Cmd)
    requires IsUserAdmin(c) && UsersFit(db)
    ensures EndsRight(UserAdminTxn(db, next, now, c), EndingOf(db, now, c))
  {
    hide EmailTaken;
    hide CollectAttributes;
    hide AssignAll;
  }

  lemma {:induction false} AccountEnds(w: World, now: nat, c: Cmd)
    requires c.SignUp? || c.ConfirmSignUp? || c.SendCode? || c.ConfirmForgotPassword? || c.RevokeToken? || c.Logout?
    ensures EndsRight(SelfServiceTxn(w, now, c), EndingOf(w.db, now, c))
  {
    hide Words;
    hide EmailTaken;
    hide CollectAttributes;
    hide Trim;
  }

  lemma {:induction false} BearerEnds(w: World, now: nat, c: Cmd)
    requires UsersFit(w.db) && (c.GetUserByToken? || c.SignOutByToken? || c.ChangePassword?)
    ensures EndsRight(SelfServiceTxn(w, now, c), EndingOf(w.db, now, c))
  {
    hide Words;
  }

  lemma {:induction false} SignInEnds(w: World, now: nat, c: Cmd)
    requires UsersFit(w.db) && (c.InitiateAuth? || c.InitiateRefresh? || c.RespondToChallenge?)
    ensures EndsRight(SelfServiceTxn(w, now, c), EndingOf(w.db, now, c))
  {
    hide UsersFit;
    hide InitiateAuthTxn;
    hide InitiateRefreshTxn;
    hide RespondTxn;
    hide IssueTokens;
    hide EndsWith;
    match c
    case InitiateAuth(_, _, _, _) => InitiateEnds(w.db, w.next, now, c);
    case InitiateRefresh(_, _, _) => InitiateRefreshEnds(w.db, w.next, now, c);
    case RespondToChallenge(_, _, _, _, _, _, _) => RespondEnds(w.db, w.next, now, c);
  }

  lemma {:induction false} InitiateEnds(db: Tables, next: Id, now: nat, c: Cmd)
    requires UsersFit(db) && c.InitiateAuth?
    ensures EndsRight(InitiateAuthTxn(db, next, now, c), None)
  {
    hide IssueTokens;
    hide InitiateAuthTxn;
    InitiateExactly(db, next, now, c);
    var t := InitiateAuthTxn(db, next, now, c);
    if t.Ok? {
      var client, u := db.clients[c.client], db.users[NamedKey(db, c.client, c.name)];
      IssueEndsNone(next, now, client, u, OptsOf(SelfService(now), FromPassword));
    }
  }

  lemma {:induction false} RefreshEnds(db: Tables, next: Id, now: nat, client: Client, r: Id)
    ensures EndsRight(Reissue(CognitoService.Refresh(db, next, now, client, r), []), None)
  {
    hide IssueTokens;
    hide CognitoService.Refresh;
    RefreshExactly(db, next, now, client, r);
    if Refreshable(db, now, client, r) {
      var u := db.users[UserKey(client.pool, db.refresh[r].owner.name)];
      IssueEndsNone(next, now, client, u, OptsOf(Continued(db.refresh[r]), FromPassword));
    }
  }

  lemma {:induction false} InitiateRefreshEnds(db: Tables, next: Id, now: nat, c: Cmd)
    requires c.InitiateRefresh?
    ensures EndsRight(InitiateRefreshTxn(db, next, now, c), None)
  {
    hide CognitoService.Refresh;
    hide EndsWith;
    if c.client in db.clients {
      RefreshEnds(db, next, now, db.clients[c.client], c.token);
    }
  }

  lemma {:induction false} AnswerEnds(db: Tables, now: nat, client: Client, name: ChallengeName, session: Id, pw: string,
                                      conforms: bool)
    ensures EndsRight(AnswerTxn(db, now, client, name, session, pw, conforms), Some(ChallengeTaken(session)))
  {
  }

  lemma {:induction false} RespondEnds(db: Tables, next: Id, now: nat, c: Cmd)
    requires UsersFit(db) && c.RespondToChallenge?
    ensures EndsRight(RespondTxn(db, next, now, c), Some(ChallengeTaken(c.session)))
  {
    hide IssueTokens;
    hide AnswerTxn;
    hide AssignAll;
    var t := RespondTxn(db, next, now, c);
    if t.Ok? {
      var client := db.clients[c.client];
      var s := AnswerTxn(db, now, client, c.challenge, c.session, c.password, c.conforms);
      AnswerEnds(db, now, client, c.challenge, c.session, c.password, c.conforms);
      var s' := if c.attrs == [] then Ok(s.value, [])
                else UpdateAttributes(EffectAll(db, s.events), db.pools[client.pool], s.value, c.attrs);
      IssueEndsNone(next, now, client, s'.value,
                    IssueOpts([ADMIN_SCOPE], None, Seconds(now), true, NewFamily(true, FromChallenge(c.session))));
      EndsConcat(s.events, s'.events, Some(ChallengeTaken(c.session)));
      EndsConcat(s.events + s'.events, IssueApiTokens(next, now, client, s'.value, FromChallenge(c.session)).events,
                 Some(ChallengeTaken(c.session)));
    }
  }

  lemma {:induction false} LoginEnds(db: Tables, next: Id, now: nat, p: Proc, c: Cmd)
    requires c.ResumeSession? || c.SignIn? || c.StartSession? || c.Complete? || c.AnswerChallenge?
    ensures EndsRight(ProcHop(db, next, now, p, c).txn, EndingOf(db, now, c))
  {
    hide IssueTokens;
    hide AnswerTxn;
    hide Join;
    if c.Complete? && p.Completing? {
      var a := p.approval;
      IssueEndsNone(next, now, a.client, p.user,
                    IssueOpts(a.scopes, a.nonce, p.authTime, OPENID in a.scopes, NewFamily(false, FromImplicit)));
    } else if c.AnswerChallenge? && p.Authorizing? {
      AnswerEnds(db, now, p.approval.client, NewPasswordRequired, c.session, c.password, c.conforms);
    }
  }

  lemma {:induction false} ExchangeEnds(db: Tables, next: Id, now: nat, client: Client, code: Id, uri: string,
                                        v: Option<Verifier>)
    ensures EndsRight(ExchangeCodeTxn(db, next, now, client, code, uri, v),
                      if code in db.codes then Some(CodeTaken(code)) else None)
  {
    hide IssueTokens;
    hide Words;
    hide PkceHolds;
    var t := ExchangeCodeTxn(db, next, now, client, code, uri, v);
    if t.Ok? && t.value.Issued? {
      var row := db.codes[code];
      var scopes := Words(row.scope);
      var u := db.users[UserKey(client.pool, row.owner.name)];
      var opts := IssueOpts(scopes, row.nonce, row.authTime, OPENID in scopes, NewFamily(true, FromCode(code)));
      IssueEndsNone(next, now, client, u, opts);
      EndsConcat([CodeTaken(code)], IssueTokens(next, now, client, u, opts).events, Some(CodeTaken(code)));
    }
  }

  lemma {:induction false} EndpointEnds(db: Tables, next: Id, now: nat, p: Proc, c: Cmd)
    requires AtTokenEndpoint(c)
    ensures EndsRight(ProcHop(db, next, now, p, c).txn, EndingOf(db, now, c))
  {
    hide ExchangeCodeTxn;
    hide CognitoService.Refresh;
    hide Words;
    hide Join;
    if p.ClientReady? {
      match c {
        case ExchangeCode(_, code, uri, v) => ExchangeEnds(db, next, now, p.client, code, uri, v);
        case ExchangeRefresh(_, r) => RefreshEnds(db, next, now, p.client, r);
        case ExchangeCredentials(_, scope) =>
        case Revoke(_, r) =>
      }
    }
  }

  /** A step adds to the history what its transaction commits, and that ends what the request says. */
  lemma {:induction false} StepCommits(w: World, now: nat, c: Cmd) returns (es: seq<Event>)
    requires UsersFit(w.db)
    ensures Step(w, now, c).0.log == w.log + es
    ensures if Step(w, now, c).1.Replied? then EndsWith(es, EndingOf(w.db, now, c)) else es == []
  {
    hide Step;
    hide EndsWith;
    hide EndingOf;
    if IsApi(c) {
      hide ApiTxn;
      ApiStep(w, now, c);
      ApiEnds(w, now, c);
      es := if ApiTxn(w, now, c).Ok? then ApiTxn(w, now, c).events else [];
    } else if c.Prepare? || c.ClientAuth? {
      es := EntryCommits(w, now, c);
    } else if c.proc in w.procs {
      hide ProcHop;
      ProcStep(w, now, c);
      var h := ProcHop(w.db, w.next, now, w.procs[c.proc], c);
      if AtTokenEndpoint(c) {
        EndpointEnds(w.db, w.next, now, w.procs[c.proc], c);
      } else {
        LoginEnds(w.db, w.next, now, w.procs[c.proc], c);
      }
      es := if h.txn.Ok? then h.txn.events else [];
    } else {
      NoSuchRequest(w, now, c);
      es := [];
    }
  }

  lemma {:induction false} ApiEnds(w: World, now: nat, c: Cmd)
    requires IsApi(c) && UsersFit(w.db)
    ensures EndsRight(ApiTxn(w, now, c), EndingOf(w.db, now, c))
  {
    hide DirectoryTxn;
    hide UserAdminTxn;
    hide SelfServiceTxn;
    hide EndsWith;
    hide EndingOf;
    if IsDirectory(c) {
      DirectoryEnds(w.db, w.next, now, c);
    } else if IsUserAdmin(c) {
      UserAdminEnds(w.db, w.next, now, c);
    } else if c.InitiateAuth? || c.InitiateRefresh? || c.RespondToChallenge? {
      SignInEnds(w, now, c);
    } else if c.GetUserByToken? || c.SignOutByToken? || c.ChangePassword? {
      BearerEnds(w, now, c);
    } else {
      AccountEnds(w, now, c);
    }
  }

  lemma {:induction false} EntryCommits(w: World, now: nat, c: Cmd) returns (es: seq<Event>)
    requires c.Prepare? || c.ClientAuth?
    ensures Step(w, now, c).0.log == w.log + es
    ensures if Step(w, now, c).1.Replied? then EndsWith(es, EndingOf(w.db, now, c)) else es == []
  {
    hide ApiTxn;
    hide ProcHop;
    hide AllIn;
    hide Words;
    var h := EntryHop(w.db, c);
    es := if h.txn.Ok? then h.txn.events else [];
    assert w.log + [] == w.log;
  }

  // ---- Requests decide ----

  lemma {:induction false} ReachedNext(w: World, now: nat, c: Cmd)
    requires Reached(w)
    ensures Reached(Step(w, now, c).0)
  {
    hide Step;
    var steps :| w == Run(steps);
    RunSnoc(steps, Timed(now, c));
    assert Run(steps + [Timed(now, c)]) == Step(w, now, c).0;
  }

  /** A live family still has its refresh token on record. */
  lemma {:induction false} FamilyKeepsRow(log: seq<Event>, i: nat)
    requires OrderlyLog(log) && i < |log| && log[i].FamilyStarted? && log[i].grant.Some?
    requires log[i].origin in Replay(log).origins
    ensures log[i].grant.value.token in Replay(log).refresh
  {
    hide PoolsAfter;
    hide ClientsAfter;
    hide UsersAfter;
    hide CodesAfter;
    hide SessionsAfter;
    hide ChallengesAfter;
    hide VerifyAfter;
    var front, e := log[..|log| - 1], log[|log| - 1];
    if i < |front| {
      assert front[i] == log[i] && log[i].origin in NewIds(front[i]);
      assert e.FamilyStarted? ==> e.origin in NewIds(e);
      FamilyKeepsRow(front, i);
      RefreshRowIs(front, i);
      OrderlyIsLinked(front);
      assert Linked(Replay(front), front[i]);
    }
  }

  /** The rows of the grant that a request could name are on record. */
  predicate OnRecord(db: Tables, g: Grant) {
    && (g.Family? && g.refresh.Some? ==> g.refresh.value in db.refresh)
    && (g.Refresh? ==> g.token in db.refresh)
    && (g.Code? ==> g.id in db.codes)
  }

  lemma {:induction false} EndingIsEnds(db: Tables, now: nat, c: Cmd, g: Grant)
    requires OnRecord(db, g)
    ensures var end := EndingOf(db, now, c); Ends(c, g) <==> end.Some? && Kills(end.value, g)
  {
  }

  lemma {:induction false} LiveOnRecord(w: World, i: nat, g: Grant)
    requires Reached(w) && i < |w.log| && Bears(w.log[i], g) && Live(w.db, g)
    ensures OnRecord(w.db, g)
  {
    ReachedInv(w);
    if g.Family? && g.refresh.Some? {
      FamilyKeepsRow(w.log, i);
    }
  }

  lemma {:induction false} UnharmedMore(log: seq<Event>, es: seq<Event>, i: nat, g: Grant)
    requires i < |log|
    ensures Unharmed(log + es, i + 1, g) <==> Unharmed(log, i + 1, g) && forall e :: e in es ==> !Kills(e, g)
  {
    if Unharmed(log + es, i + 1, g) {
      forall k | i + 1 <= k < |log| ensures !Kills(log[k], g) {
        assert (log + es)[k] == log[k];
      }
      forall e | e in es ensures !Kills(e, g) {
        var k :| 0 <= k < |es| && es[k] == e;
        assert (log + es)[|log| + k] == e;
      }
    }
  }

  /** ENDING. A step ends a grant, whoever holds it, exactly if its request ends it and is answered. */
  lemma {:induction false} StepEnds(w: World, now: nat, c: Cmd, i: nat, g: Grant)
    requires Reached(w) && i < |w.log| && Bears(w.log[i], g)
    ensures var s := Step(w, now, c); Live(s.0.db, g) <==> Live(w.db, g) && !(s.1.Replied? && Ends(c, g))
  {
    hide Step;
    hide Live;
    hide Kills;
    hide Bears;
    hide Ends;
    hide EndingOf;
    ReachedInv(w);
    ReachedNext(w, now, c);
    var s := Step(w, now, c);
    ReachedInv(s.0);
    var es := StepCommits(w, now, c);
    assert s.0.log[i] == w.log[i];
    GrantFate(w.log, i, g);
    GrantFate(s.0.log, i, g);
    UnharmedMore(w.log, es, i, g);
    if Live(w.db, g) {
      LiveOnRecord(w, i, g);
      EndingIsEnds(w.db, now, c, g);
      forall e | e in es && Kills(e, g)
        ensures Ending(e)
      {
        KillsEnds(e, g);
      }
    }
  }

  /** Step `j` is answered and ends the grant. */
  ghost predicate EndedAt(steps: seq<Timed>, j: nat, g: Grant)
    requires j < |steps|
  {
    Ends(steps[j].cmd, g) && Step(Run(steps[..j]), steps[j].now, steps[j].cmd).1.Replied?
  }

  /** LIFE. Over every run, a grant usable at one point is usable later exactly if no request answered in between ends
      it. */
  lemma {:induction false} LifeByRequests(before: seq<Timed>, after: seq<Timed>, i: nat, g: Grant)
    requires i < |Run(before).log| && Bears(Run(before).log[i], g)
    ensures Live(Run(before + after).db, g) <==>
              Live(Run(before).db, g) && forall j: nat :: |before| <= j < |before + after| ==> !EndedAt(before + after, j, g)
    decreases |after|
  {
    hide Step;
    hide Live;
    hide Bears;
    hide Ends;
    hide EndedAt;
    if after == [] {
      assert before + after == before;
    } else {
      var front, last := after[..|after| - 1], after[|after| - 1];
      LifeByRequests(before, front, i, g);
      LifeStep(before, front, last, i, g);
      assert before + after == (before + front) + [last];
    }
  }

  lemma {:induction false} LifeStep(before: seq<Timed>, front: seq<Timed>, last: Timed, i: nat, g: Grant)
    requires i < |Run(before).log| && Bears(Run(before).log[i], g)
    ensures var past, whole := before + front, (before + front) + [last];
            && (Live(Run(whole).db, g) <==> Live(Run(past).db, g) && !EndedAt(whole, |past|, g))
            && (forall j: nat :: j < |past| ==> (EndedAt(whole, j, g) <==> EndedAt(past, j, g)))
  {
    hide Step;
    hide Live;
    hide Bears;
    hide Ends;
    var past, whole := before + front, (before + front) + [last];
    assert whole[..|past|] == past && whole[|past|] == last;
    RunGrows(before, front);
    RunSnoc(past, last);
    assert Reached(Run(past));
    StepEnds(Run(past), last.now, last.cmd, i, g);
    forall j: nat | j < |past|
      ensures EndedAt(whole, j, g) <==> EndedAt(past, j, g)
    {
      assert whole[..j] == past[..j] && whole[j] == past[j];
    }
  }

  // ---- An ended grant is of no use ----

  /** The request presents the grant. */
  predicate Presents(c: Cmd, g: Grant) {
    match g
    case Family(o, _, _, _) =>
      (c.GetUserByToken? || c.SignOutByToken? || c.ChangePassword?) && c.access.Access? && c.access.origin == o
    case Refresh(r, _, _, _) => (c.ExchangeRefresh? || c.InitiateRefresh?) && c.token == r
    case Code(i, _) => c.ExchangeCode? && c.authCode == i
    case Session(i, _) => c.ResumeSession? && c.session == i
    case Challenge(i, _) => (c.RespondToChallenge? || c.AnswerChallenge?) && c.session == i
  }

  predicate Refused(a: Answer) { a.Failed? || a == Replied(InvalidGrant) }

  lemma {:induction false} DeadFamily(w: World, i: nat, g: Grant)
    requires Reached(w) && i < |w.log| && Bears(w.log[i], g) && g.Family? && !Live(w.db, g)
    ensures OriginRevoked(w.db, g.origin)
  {
    ReachedInv(w);
    OrderlyIsLinked(w.log);
    assert Linked(w.db, w.log[i]);
  }

  lemma {:induction false} DeadFamilyRefused(w: World, i: nat, g: Grant, now: nat, c: Cmd)
    requires Reached(w) && i < |w.log| && Bears(w.log[i], g) && g.Family? && !Live(w.db, g) && Presents(c, g)
    ensures Step(w, now, c).1.Failed?
  {
    hide Step;
    hide Bears;
    hide Live;
    DeadFamily(w, i, g);
    assert !Admitted(w, c.access, now) by {
      hide Words;
    }
    match c
    case GetUserByToken(t) => UserTold(w, now, t);
    case SignOutByToken(t) => BearerSignedOut(w, now, t);
    case ChangePassword(t, prev, pw, conforms) => PasswordChanged(w, now, t, prev, pw, conforms);
  }

  lemma {:induction false} DeadRefreshRefused(w: World, i: nat, g: Grant, now: nat, c: Cmd)
    requires Reached(w) && i < |w.log| && Bears(w.log[i], g) && g.Refresh? && !Live(w.db, g) && Presents(c, g)
    ensures Step(w, now, c).1.Failed?
  {
    hide Step;
    hide Issues;
    forall client | Refreshable(w.db, now, client, g.token) ensures false {
      DeadRefresh(w, i, g, now, client);
    }
    if c.InitiateRefresh? {
      RefreshedByApi(w, now, c);
    } else if c.proc in w.procs && w.procs[c.proc].ClientReady? {
      RefreshedAtEndpoint(w, now, c.proc, w.procs[c.proc].client, c.token);
    } else {
      NotReady(w, now, c);
    }
  }

  lemma {:induction false} DeadRefresh(w: World, i: nat, g: Grant, now: nat, client: Client)
    requires Reached(w) && i < |w.log| && Bears(w.log[i], g) && g.Refresh? && !Live(w.db, g)
    ensures !Refreshable(w.db, now, client, g.token)
  {
    ReachedInv(w);
    RefreshRowIs(w.log, i);
    OrderlyIsLinked(w.log);
    assert Linked(w.db, w.log[i]);
  }

  lemma {:induction false} NotReady(w: World, now: nat, c: Cmd)
    requires AtTokenEndpoint(c) && !(c.proc in w.procs && w.procs[c.proc].ClientReady?)
    ensures Step(w, now, c).1.Failed?
  {
    hide Step;
    if Step(w, now, c).1.Replied? {
      EndpointNeedsClient(w, now, c);
    }
  }

  lemma {:induction false} DeadCodeRefused(w: World, i: nat, g: Grant, now: nat, c: Cmd)
    requires Reached(w) && i < |w.log| && Bears(w.log[i], g) && g.Code? && !Live(w.db, g) && Presents(c, g)
    ensures Refused(Step(w, now, c).1)
  {
    hide Step;
    ReachedInv(w);
    CodeKept(w.log, i);
    if c.proc in w.procs && w.procs[c.proc].ClientReady? {
      var client := w.procs[c.proc].client;
      if g.id in w.db.codes {
        hide Issues;
        ExchangeConsumesCode(w, now, c.proc, client, g.id, c.redirectUri, c.verifier);
        CodeExchanged(w, now, c.proc, client, g.id, c.redirectUri, c.verifier);
      } else {
        UnknownCode(w, now, c.proc, client, g.id, c.redirectUri, c.verifier);
      }
    } else {
      NotReady(w, now, c);
    }
  }

  lemma {:induction false} DeadSessionRefused(w: World, i: nat, g: Grant, now: nat, c: Cmd)
    requires Reached(w) && i < |w.log| && Bears(w.log[i], g) && g.Session? && !Live(w.db, g) && Presents(c, g)
    ensures Step(w, now, c).1.Failed?
  {
    hide Step;
    ReachedInv(w);
    SessionKept(w.log, i);
    NotLoggingIn(w, now, c);
    if c.proc in w.procs && w.procs[c.proc].Authorizing? {
      SessionResumed(w, now, c.proc, w.procs[c.proc].approval, g.id);
    }
  }

  lemma {:induction false} NotLoggingIn(w: World, now: nat, c: Cmd)
    requires c.ResumeSession? || c.AnswerChallenge?
    ensures !(c.proc in w.procs && w.procs[c.proc].Authorizing?) ==> Step(w, now, c).1.Failed?
  {
    hide Step;
    if c.proc in w.procs {
      ProcStep(w, now, c);
    } else {
      NoSuchRequest(w, now, c);
    }
  }

  lemma {:induction false} DeadChallengeRefused(w: World, i: nat, g: Grant, now: nat, c: Cmd)
    requires Reached(w) && i < |w.log| && Bears(w.log[i], g) && g.Challenge? && !Live(w.db, g) && Presents(c, g)
    ensures Step(w, now, c).1.Failed?
  {
    hide Step;
    ReachedInv(w);
    ChallengeKept(w.log, i);
    assert g.id !in w.db.challenges;
    if c.RespondToChallenge? {
      hide Issues;
      hide Updated;
      var _ := ChallengeResponded(w, now, c);
    } else {
      NotLoggingIn(w, now, c);
      if c.proc in w.procs && w.procs[c.proc].Authorizing? {
        NewPasswordChosen(w, now, c.proc, w.procs[c.proc].approval, g.id, c.password, c.conforms);
      }
    }
  }

  /** A grant no longer usable is refused wherever it is presented. */
  lemma {:induction false} DeadRefused(w: World, i: nat, g: Grant, now: nat, c: Cmd)
    requires Reached(w) && i < |w.log| && Bears(w.log[i], g) && !Live(w.db, g) && Presents(c, g)
    ensures Refused(Step(w, now, c).1)
  {
    hide Step;
    hide Bears;
    hide Live;
    match g
    case Family(_, _, _, _) => DeadFamilyRefused(w, i, g, now, c);
    case Refresh(_, _, _, _) => DeadRefreshRefused(w, i, g, now, c);
    case Code(_, _) => DeadCodeRefused(w, i, g, now, c);
    case Session(_, _) => DeadSessionRefused(w, i, g, now, c);
    case Challenge(_, _) => DeadChallengeRefused(w, i, g, now, c);
  }

  /** ENDED. Once a request that ends a grant is answered, the grant is refused wherever it is presented, however the run
      goes on. */
  lemma {:induction false} EndedForGood(steps: seq<Timed>, step: Timed, more: seq<Timed>, i: nat, g: Grant, now: nat, c: Cmd)
    requires i < |Run(steps).log| && Bears(Run(steps).log[i], g)
    requires Ends(step.cmd, g) && Step(Run(steps), step.now, step.cmd).1.Replied?
    requires Presents(c, g)
    ensures !Live(Run(steps + [step] + more).db, g)
    ensures Refused(Step(Run(steps + [step] + more), now, c).1)
  {
    hide Step;
    hide Bears;
    hide Live;
    hide Ends;
    hide Presents;
    var whole, n := steps + ([step] + more), |steps|;
    assert whole[..n] == steps && whole[n] == step;
    assert EndedAt(whole, n, g);
    LifeByRequests(steps, [step] + more, i, g);
    assert whole == steps + [step] + more;
    RunGrows(steps, [step] + more);
    assert Reached(Run(whole));
    DeadRefused(Run(whole), i, g, now, c);
  }

  /** REVOCATION. After a revocation of a stored refresh token is answered, at either place, no request ever gets
      anything for the token, and no access token of its family is accepted, however the run goes on. */
  lemma {:induction false} RevokedForGood(steps: seq<Timed>, step: Timed, more: seq<Timed>)
    requires (step.cmd.Revoke? || step.cmd.RevokeToken?) && step.cmd.token in Run(steps).db.refresh
    requires Step(Run(steps), step.now, step.cmd).1.Replied?
    ensures var w, r := Run(steps + [step] + more), step.cmd.token;
            && (forall now: nat, c: Cmd :: (c.ExchangeRefresh? || c.InitiateRefresh?) && c.token == r ==> Step(w, now, c).1.Failed?)
            && (forall next, now, client :: CognitoService.Refresh(w.db, next, now, client, r).Err?)
            && (forall minted, t: Token, now :: t.Access? && t.origin == Run(steps).db.refresh[r].origin ==>
                  ValidateAccess(w.db, minted, t, now).Err?)
  {
    hide Step;
    hide Bears;
    hide Live;
    hide CognitoService.Refresh;
    hide ValidateAccess;
    var w0, r := Run(steps), step.cmd.token;
    var w, row := Run(steps + [step] + more), w0.db.refresh[r];
    var i := RefreshBirth(w0, r);
    var token := Grant.Refresh(r, row.origin, row.owner, row.client);
    RunGrows(steps, [step] + more);
    assert steps + ([step] + more) == steps + [step] + more;
    assert Reached(w);
    EndedForGood(steps, step, more, i, token, 0, InitiateRefresh(None, 0, r));
    RevokedFamily(steps, step, more, i, Family(row.origin, row.owner, row.client, Some(r)));
    forall now: nat, c: Cmd | (c.ExchangeRefresh? || c.InitiateRefresh?) && c.token == r
      ensures Step(w, now, c).1.Failed?
    {
      DeadRefreshRefused(w, i, token, now, c);
    }
    forall next, now, client
      ensures CognitoService.Refresh(w.db, next, now, client, r).Err?
    {
      DeadRefresh(w, i, token, now, client);
      RefreshExactly(w.db, next, now, client, r);
    }
  }

  /** A stored refresh token and its family were born together. */
  lemma {:induction false} RefreshBirth(w: World, r: Id) returns (i: nat)
    requires Reached(w) && r in w.db.refresh
    ensures var row := w.db.refresh[r];
            i < |w.log| && Bears(w.log[i], Grant.Refresh(r, row.origin, row.owner, row.client))
            && Bears(w.log[i], Family(row.origin, row.owner, row.client, Some(r)))
  {
    ReachedInv(w);
    OrderlyIsLinked(w.log);
    i :| 0 <= i < |w.log| && StartsRefresh(w.log[i], r, w.db.refresh[r]);
  }

  lemma {:induction false} RevokedFamily(steps: seq<Timed>, step: Timed, more: seq<Timed>, i: nat, g: Grant)
    requires g.Family? && i < |Run(steps).log| && Bears(Run(steps).log[i], g)
    requires Ends(step.cmd, g) && Step(Run(steps), step.now, step.cmd).1.Replied?
    ensures var w := Run(steps + [step] + more);
            forall minted, t: Token, now :: t.Access? && t.origin == g.origin ==> ValidateAccess(w.db, minted, t, now).Err?
  {
    hide Step;
    hide Bears;
    hide Live;
    hide Ends;
    var w := Run(steps + [step] + more);
    var t := Access(0, 0, g.owner, g.client, g.origin, "", 0, 0, 0);
    EndedForGood(steps, step, more, i, g, 0, GetUserByToken(t));
    RunGrows(steps, [step] + more);
    assert steps + ([step] + more) == steps + [step] + more;
    assert Reached(w);
    DeadFamily(w, i, g);
  }
}
