/** Who gets tokens, and which: clients authenticate, users sign in by API or hosted UI, and every answer with tokens
    says exactly what they carry and what is written for them. */
module CognitoSignIns {
  import opened Options
  import opened Text
  import opened CognitoTables
  import opened CognitoGrants
  import opened CognitoService
  import opened CognitoLog
  import opened CognitoServer
  import opened CognitoInvariant
  import opened CognitoTheorems
  import opened CognitoRequests
  import CognitoStore

  // ---- Clients at the token endpoint ----

  /** AUTHENTICATION. A client is let in exactly if it is stored and presents its secret, if it has one; it is then held
      as it is stored now. */
  lemma {:induction false} ClientLetIn(w: World, now: nat, c: Id, secret: Option<string>)
    ensures var s := Step(w, now, ClientAuth(c, secret));
            var pid := w.next + STRIDE - 1;
            && (s.1.Replied? <==> c in w.db.clients && SecretRight(w.db.clients[c], secret))
            && (s.1.Replied? ==> s.1.reply == Proceed(pid) && s.0.procs == w.procs[pid := ClientReady(w.db.clients[c])])
            && s.0.db == w.db
  {
    hide ApiTxn;
    hide ProcHop;
  }

  /** Step `i` let this client in under this number, as it was stored then, with the secret it had. */
  ghost predicate LetIn(steps: seq<Timed>, i: nat, pid: Id, client: Client) {
    && i < |steps| && steps[i].cmd.ClientAuth? && SecretRight(client, steps[i].cmd.secret)
    && var w := Run(steps[..i]);
    && pid == w.next + STRIDE - 1
    && steps[i].cmd.client in w.db.clients && w.db.clients[steps[i].cmd.client] == client
  }

  /** A step holds a client ready only by letting it in. */
  lemma {:induction false} ReadyStep(w: World, now: nat, c: Cmd, pid: Id)
    requires pid in Step(w, now, c).0.procs && Step(w, now, c).0.procs[pid].ClientReady?
    ensures (pid in w.procs && w.procs[pid] == Step(w, now, c).0.procs[pid])
            || (&& c.ClientAuth? && pid == w.next + STRIDE - 1
                && c.client in w.db.clients && Step(w, now, c).0.procs[pid] == ClientReady(w.db.clients[c.client])
                && SecretRight(w.db.clients[c.client], c.secret))
  {
    hide ApiTxn;
    hide PrepareTxn;
    hide SignInTxn;
    hide AnswerTxn;
    hide CompleteTxn;
    hide ExchangeCodeTxn;
    hide CredentialsTxn;
    hide CognitoService.Refresh;
    hide RevokeRefresh;
  }

  /** CLIENTS. Over every run, a client held ready at the token endpoint was let in by an earlier step of the run, which
      presented the secret the client had then. */
  lemma {:induction false} ReadyWasLetIn(steps: seq<Timed>, pid: Id) returns (i: nat)
    requires pid in Run(steps).procs && Run(steps).procs[pid].ClientReady?
    ensures LetIn(steps, i, pid, Run(steps).procs[pid].client)
  {
    hide Step;
    var front, last := steps[..|steps| - 1], steps[|steps| - 1];
    var w, client := Run(front), Run(steps).procs[pid].client;
    ReadyStep(w, last.now, last.cmd, pid);
    if pid in w.procs && w.procs[pid] == ClientReady(client) {
      i := ReadyWasLetIn(front, pid);
      assert front[..i] == steps[..i] && front[i] == steps[i];
    } else {
      i := |front|;
    }
  }

  predicate AtTokenEndpoint(c: Cmd) { c.ExchangeCode? || c.ExchangeRefresh? || c.ExchangeCredentials? || c.Revoke? }

  /** TOKEN ENDPOINT. Whatever the token endpoint answers in a run, tokens or a revocation, it answers to a client that
      an earlier step let in. */
  lemma {:induction false} AnsweredWasLetIn(steps: seq<Timed>, j: nat) returns (i: nat, client: Client)
    requires j < |steps| && AtTokenEndpoint(steps[j].cmd)
    requires Step(Run(steps[..j]), steps[j].now, steps[j].cmd).1.Replied?
    ensures i < j && LetIn(steps, i, steps[j].cmd.proc, client)
    ensures var w := Run(steps[..j]); steps[j].cmd.proc in w.procs && w.procs[steps[j].cmd.proc] == ClientReady(client)
  {
    hide Step;
    var w, c := Run(steps[..j]), steps[j].cmd;
    EndpointNeedsClient(w, steps[j].now, c);
    client := w.procs[c.proc].client;
    i := ReadyWasLetIn(steps[..j], c.proc);
    assert steps[..j][..i] == steps[..i] && steps[..j][i] == steps[i];
  }

  lemma {:induction false} EndpointNeedsClient(w: World, now: nat, c: Cmd)
    requires AtTokenEndpoint(c) && Step(w, now, c).1.Replied?
    ensures c.proc in w.procs && w.procs[c.proc].ClientReady?
  {
    hide Step;
    NoRequest(w, now, c);
    if c.proc in w.procs && !w.procs[c.proc].ClientReady? {
      ProcStep(w, now, c);
    }
  }

  lemma {:induction false} NoRequest(w: World, now: nat, c: Cmd)
    requires AtTokenEndpoint(c)
    ensures c.proc !in w.procs ==> Step(w, now, c).1.Failed?
  {
    hide ApiTxn;
    hide EntryHop;
    hide ProcHop;
  }

  // ---- Tokens ----

  /** What tokens are issued on: the scopes, when and under which nonce the user signed in, whether an identity token and
      a refresh token go with them, and the family, unless it is a new one. */
  datatype Grounds = Grounds(
    scopes: seq<string>,
    authTime: int,
    nonce: Option<string>,
    identity: bool,
    refresh: bool,
    family: Option<Id>)

  /** The tokens carry the user, the client and the grounds, and live as long as the client says. */
  predicate Carries(ts: TokenSet, now: nat, client: Client, u: User, g: Grounds) {
    var iat := now / 1000;
    && ts.access.Access? && ts.access.sub == u.sub && ts.access.owner == u.key && ts.access.client == client.id
    && ts.access.scope == Join(g.scopes) && ts.access.authTime == g.authTime
    && ts.access.iat == iat && ts.access.exp == iat + client.accessTtl && ts.expiresIn == client.accessTtl
    && (g.family.Some? ==> ts.access.origin == g.family.value)
    && (ts.identity.Some? <==> g.identity)
    && (ts.identity.Some? ==>
          var id := ts.identity.value;
          && id.Identity? && id.sub == u.sub && id.owner == u.key && id.client == client.id
          && id.origin == ts.access.origin && id.nonce == g.nonce && id.authTime == g.authTime
          && id.iat == iat && id.exp == iat + client.idTtl && id.jti != ts.access.jti)
    && (ts.refresh.Some? <==> g.refresh)
  }

  /** The tables with the rows of the tokens: a new family's, and a refresh token's that lives as long as the client
      says. */
  function WithFamily(db: Tables, ts: TokenSet, now: nat, client: Client, u: User, g: Grounds): Tables
    requires ts.access.Access?
  {
    var o := ts.access.origin;
    db.(origins := if g.family.Some? then db.origins else db.origins[o := OriginRow(u.key, client.id, false)],
        refresh := if ts.refresh.None? then db.refresh
                   else db.refresh[ts.refresh.value := RefreshRow(u.key, client.id, o, Join(g.scopes), g.authTime,
                                                                  now + client.refreshTtl * 1000, false)])
  }

  /** Identifiers drawn for the tokens are the step's own. */
  predicate Drawn(id: Id, next: Id) { next <= id < next + STRIDE }

  /** The step signs these tokens, writes their rows over `base`, and draws every new identifier anew. */
  ghost predicate Issues(w: World, w': World, base: Tables, ts: TokenSet, now: nat, client: Client, u: User, g: Grounds) {
    && Carries(ts, now, client, u, g)
    && w'.db == WithFamily(base, ts, now, client, u, g)
    && Minted(ts.access) in w'.log && (ts.identity.Some? ==> Minted(ts.identity.value) in w'.log)
    && Drawn(ts.access.jti, w.next) && (ts.identity.Some? ==> Drawn(ts.identity.value.jti, w.next))
    && (g.family.None? ==> Drawn(ts.access.origin, w.next))
    && (ts.refresh.Some? ==> Drawn(ts.refresh.value, w.next) && ts.refresh.value != ts.access.origin)
  }

  function OptsOf(g: Grounds, source: Source): IssueOpts {
    IssueOpts(g.scopes, g.nonce, g.authTime, g.identity,
              if g.family.Some? then SameFamily(g.family.value) else NewFamily(g.refresh, source))
  }

  /** Committing an issue behind other events. */
  lemma {:induction false} IssueLaw(w: World, before: seq<Event>, now: nat, client: Client, u: User, g: Grounds,
                                    source: Source)
    requires g.family.Some? ==> !g.refresh
    ensures var t := IssueTokens(w.next, now, client, u, OptsOf(g, source));
            Issues(w, Commit(w, before + t.events), EffectAll(w.db, before), t.value, now, client, u, g)
  {
    hide Effect;
    hide Join;
    var opts := OptsOf(g, source);
    var t := IssueTokens(w.next, now, client, u, opts);
    EffectConcat(w.db, before, t.events);
    CognitoStore.IssueEffect(EffectAll(w.db, before), w.next, now, client, u, opts);
    assert Minted(t.value.access) in t.events;
    assert t.value.identity.Some? ==> Minted(t.value.identity.value) in t.events;
  }

  // ---- Sign-in by API ----

  /** The app's client may use the flow, in this pool if the request names one. */
  predicate AppMay(db: Tables, c: Id, p: Option<Id>, flow: AuthFlow) {
    && c in db.clients && (p.None? || db.clients[c].pool == p.value)
    && (db.clients[c].explicitFlows == {} || flow in db.clients[c].explicitFlows)
  }

  predicate PasswordRight(db: Tables, k: UserKey, password: string) {
    k in db.users && db.users[k].enabled && db.users[k].password == Some(password)
  }

  /** What a sign-in by API is granted. */
  function SelfService(now: nat): Grounds { Grounds([ADMIN_SCOPE], now / 1000, None, true, true, None) }

  /** A challenge to choose a new password, for as long as the client says. */
  function WithChallenge(db: Tables, next: Id, now: nat, client: Client, k: UserKey): Tables {
    db.(challenges := db.challenges[next := ChallengeRow(k, client.id, NewPasswordRequired,
                                                         now + client.sessionMinutes * 60_000)])
  }

  lemma {:induction false} ChallengeEffect(db: Tables, next: Id, now: nat, client: Client, u: User)
    requires u.key.pool == client.pool
    ensures var t := CreateChallenge(next, now, client, u);
            EffectAll(db, t.events) == WithChallenge(db, next, now, client, u.key)
  {
    var e := CreateChallenge(next, now, client, u).events[0];
    EffectOne(db, e);
  }

  /** What the transaction of a sign-in by password comes to. */
  lemma {:induction false} InitiateExactly(db: Tables, next: Id, now: nat, c: Cmd)
    requires c.InitiateAuth? && UsersFit(db)
    ensures var t := InitiateAuthTxn(db, next, now, c);
            var flow := if c.adminPool.Some? then AdminPasswordAuth else UserPasswordAuth;
            var may := AppMay(db, c.client, c.adminPool, flow) && db.clients[c.client].pool in db.pools;
            var k := NamedKey(db, c.client, c.name);
            && (t.Ok? <==> may && PasswordRight(db, k, c.password) && db.users[k].status in {CONFIRMED, FORCE_CHANGE_PASSWORD})
            && (t.Ok? && db.users[k].status == CONFIRMED ==>
                  var i := IssueTokens(next, now, db.clients[c.client], db.users[k], OptsOf(SelfService(now), FromPassword));
                  t.value == Issued(i.value) && t.events == [] + i.events)
            && (t.Ok? && db.users[k].status != CONFIRMED ==>
                  t.value == Challenged(next)
                  && t.events == CreateChallenge(next, now, db.clients[c.client], db.users[k]).events)
  {
    hide IssueTokens;
    hide CreateChallenge;
  }

  /** SIGN-IN. By API, tokens go exactly to a stored, enabled, confirmed user with this password, through a client that
      may use the flow: an access, an identity and a refresh token of a new family. A user who must choose a new
      password gets a challenge instead, and nobody else anything. */
  lemma {:induction false} SignedInByPassword(w: World, now: nat, c: Cmd)
    requires Reached(w) && c.InitiateAuth?
    ensures var s := Step(w, now, c);
            var flow := if c.adminPool.Some? then AdminPasswordAuth else UserPasswordAuth;
            var may := AppMay(w.db, c.client, c.adminPool, flow) && w.db.clients[c.client].pool in w.db.pools;
            var k := NamedKey(w.db, c.client, c.name);
            && (s.1.Replied? <==>
                  may && PasswordRight(w.db, k, c.password) && w.db.users[k].status in {CONFIRMED, FORCE_CHANGE_PASSWORD})
            && (s.1.Replied? && w.db.users[k].status == CONFIRMED ==>
                  s.1.reply.Issued?
                  && Issues(w, s.0, w.db, s.1.reply.tokens, now, w.db.clients[c.client], w.db.users[k], SelfService(now)))
            && (s.1.Replied? && w.db.users[k].status != CONFIRMED ==>
                  s.1.reply == Challenged(w.next)
                  && s.0.db == WithChallenge(w.db, w.next, now, w.db.clients[c.client], k))
  {
    hide Step;
    hide Effect;
    hide IssueTokens;
    hide CreateChallenge;
    hide Issues;
    hide InitiateAuthTxn;
    ReachedRows(w);
    ServiceStep(w, now, c);
    InitiateExactly(w.db, w.next, now, c);
    if InitiateAuthTxn(w.db, w.next, now, c).Ok? {
      var client, k := w.db.clients[c.client], NamedKey(w.db, c.client, c.name);
      SignedInEffects(w, now, client, k);
    }
  }

  lemma {:induction false} SignedInEffects(w: World, now: nat, client: Client, k: UserKey)
    requires UsersFit(w.db) && k in w.db.users && k.pool == client.pool
    ensures var i := IssueTokens(w.next, now, client, w.db.users[k], OptsOf(SelfService(now), FromPassword));
            Issues(w, Commit(w, [] + i.events), w.db, i.value, now, client, w.db.users[k], SelfService(now))
    ensures Commit(w, CreateChallenge(w.next, now, client, w.db.users[k]).events).db
         == WithChallenge(w.db, w.next, now, client, k)
  {
    hide Effect;
    hide IssueTokens;
    hide CreateChallenge;
    hide Issues;
    IssueLaw(w, [], now, client, w.db.users[k], SelfService(now), FromPassword);
    ChallengeEffect(w.db, w.next, now, client, w.db.users[k]);
  }

  // ---- Refresh ----

  /** The refresh token is this client's, of a family not revoked, unexpired, and its user there and enabled. */
  predicate Refreshable(db: Tables, now: nat, client: Client, r: Id) {
    && r in db.refresh
    && var row := db.refresh[r];
    && row.client == client.id && !row.revoked && now <= row.expiresAt
    && row.origin in db.origins && !db.origins[row.origin].revoked
    && client.pool in db.pools
    && var k := UserKey(client.pool, row.owner.name);
       k in db.users && db.users[k].enabled
  }

  /** More of the same: the scopes and the sign-in on record, in the same family and without a new refresh token. */
  function Continued(row: RefreshRow): Grounds {
    var scopes := Words(row.scope);
    Grounds(scopes, row.authTime, None, OPENID in scopes || ADMIN_SCOPE in scopes, false, Some(row.origin))
  }

  lemma {:induction false} RefreshExactly(db: Tables, next: Id, now: nat, client: Client, r: Id)
    ensures var t := CognitoService.Refresh(db, next, now, client, r);
            && (t.Ok? <==> Refreshable(db, now, client, r))
            && (t.Ok? ==> var u := db.users[UserKey(client.pool, db.refresh[r].owner.name)];
                          t == IssueTokens(next, now, client, u, OptsOf(Continued(db.refresh[r]), FromPassword)))
  {
    hide IssueTokens;
    hide Words;
  }

  /** The step is answered with tokens exactly for a refreshable token. */
  ghost predicate Refreshes(w: World, s: (World, Answer), now: nat, client: Client, r: Id) {
    if Refreshable(w.db, now, client, r) then
      var u := w.db.users[UserKey(client.pool, w.db.refresh[r].owner.name)];
      && s.1.Replied? && s.1.reply.Issued?
      && Issues(w, s.0, w.db, s.1.reply.tokens, now, client, u, Continued(w.db.refresh[r]))
    else s.1.Failed? && s.0.db == w.db
  }

  lemma {:induction false} RefreshIssues(w: World, now: nat, client: Client, r: Id)
    requires Refreshable(w.db, now, client, r)
    ensures var t := Reissue(CognitoService.Refresh(w.db, w.next, now, client, r), []);
            var u := w.db.users[UserKey(client.pool, w.db.refresh[r].owner.name)];
            && t.Ok? && t.value.Issued?
            && Issues(w, Commit(w, t.events), w.db, t.value.tokens, now, client, u, Continued(w.db.refresh[r]))
  {
    hide Effect;
    hide IssueTokens;
    hide Issues;
    hide CognitoService.Refresh;
    RefreshExactly(w.db, w.next, now, client, r);
    var u := w.db.users[UserKey(client.pool, w.db.refresh[r].owner.name)];
    IssueLaw(w, [], now, client, u, Continued(w.db.refresh[r]), FromPassword);
  }

  /** REFRESH at the token endpoint. */
  lemma {:induction false} RefreshedAtEndpoint(w: World, now: nat, pid: Id, client: Client, r: Id)
    requires pid in w.procs && w.procs[pid] == ClientReady(client)
    ensures Refreshes(w, Step(w, now, ExchangeRefresh(pid, r)), now, client, r)
  {
    hide Step;
    hide Effect;
    hide Issues;
    hide CognitoService.Refresh;
    ProcStep(w, now, ExchangeRefresh(pid, r));
    RefreshExactly(w.db, w.next, now, client, r);
    if Refreshable(w.db, now, client, r) {
      RefreshIssues(w, now, client, r);
      var h := ProcHop(w.db, w.next, now, w.procs[pid], ExchangeRefresh(pid, r));
      LandedIssue(w, pid, h, w.db, h.txn.value.tokens, now, client,
                  w.db.users[UserKey(client.pool, w.db.refresh[r].owner.name)], Continued(w.db.refresh[r]));
    }
  }

  /** Where a request goes next does not matter to what it issued. */
  lemma {:induction false} LandedIssue(w: World, pid: Id, h: Hop, base: Tables, ts: TokenSet, now: nat, client: Client,
                                       u: User, g: Grounds)
    requires h.txn.Ok? && Issues(w, Commit(w, h.txn.events), base, ts, now, client, u, g)
    ensures Issues(w, Land(w, pid, h), base, ts, now, client, u, g)
  {
    hide EffectAll;
  }

  /** REFRESH by API, through a client that may use the flow. */
  lemma {:induction false} RefreshedByApi(w: World, now: nat, c: Cmd)
    requires c.InitiateRefresh?
    ensures var s := Step(w, now, c);
            if AppMay(w.db, c.client, c.adminPool, RefreshTokenAuth)
            then Refreshes(w, s, now, w.db.clients[c.client], c.token)
            else s.1.Failed? && s.0.db == w.db
  {
    hide Step;
    hide Effect;
    hide Issues;
    hide CognitoService.Refresh;
    ServiceStep(w, now, c);
    if AppMay(w.db, c.client, c.adminPool, RefreshTokenAuth) {
      RefreshExactly(w.db, w.next, now, w.db.clients[c.client], c.token);
      if Refreshable(w.db, now, w.db.clients[c.client], c.token) {
        RefreshIssues(w, now, w.db.clients[c.client], c.token);
      }
    }
  }

  // ---- Challenges ----

  /** The challenge is this client's, under this name, unexpired, and its user there and enabled. */
  predicate Answerable(db: Tables, now: nat, client: Client, session: Id, name: ChallengeName) {
    && session in db.challenges
    && var row := db.challenges[session];
    && row.client == client.id && row.name == name && now <= row.expiresAt
    && var k := UserKey(client.pool, row.owner.name);
       k in db.users && db.users[k].enabled
  }

  function ChallengedKey(db: Tables, client: Client, session: Id): UserKey
    requires session in db.challenges
  {
    UserKey(client.pool, db.challenges[session].owner.name)
  }

  /** The challenge used up, and its user as given. */
  function Answered(db: Tables, session: Id, u: User): Tables {
    db.(challenges := map i | i in db.challenges && i != session :: db.challenges[i], users := db.users[u.key := u])
  }

  lemma {:induction false} AnswerExactly(db: Tables, now: nat, client: Client, name: ChallengeName, session: Id, pw: string,
                                         conforms: bool)
    requires UsersFit(db)
    ensures var t := AnswerTxn(db, now, client, name, session, pw, conforms);
            && (t.Ok? <==> Answerable(db, now, client, session, name) && conforms)
            && (t.Ok? ==>
                  && t.value == Rescued(db.users[ChallengedKey(db, client, session)], pw)
                  && t.events == [ChallengeTaken(session)] + [UserSaved(t.value)]
                  && EffectAll(db, t.events) == Answered(db, session, t.value))
  {
    hide Effect;
    var t := AnswerTxn(db, now, client, name, session, pw, conforms);
    if t.Ok? {
      EffectTwo(db, ChallengeTaken(session), UserSaved(t.value));
      ChallengeDropped(db, session);
      SaveEffect(Effect(db, ChallengeTaken(session)), t.value);
    }
  }

  lemma {:induction false} ChallengeDropped(db: Tables, session: Id)
    ensures Effect(db, ChallengeTaken(session))
         == db.(challenges := map i | i in db.challenges && i != session :: db.challenges[i])
  {
    assert db.challenges - {session} == map i | i in db.challenges && i != session :: db.challenges[i];
  }

  predicate AppPool(db: Tables, c: Id, p: Option<Id>) {
    c in db.clients && (p.None? || db.clients[c].pool == p.value) && db.clients[c].pool in db.pools
  }

  /** A response to the one challenge there is, with a password that conforms and attributes that can be assigned. */
  predicate Accepted(db: Tables, now: nat, c: Cmd)
    requires c.RespondToChallenge?
  {
    && c.challenge == NewPasswordRequired && AppPool(db, c.client, c.optPool) && c.conforms
    && var client := db.clients[c.client];
    && Answerable(db, now, client, c.session, NewPasswordRequired)
    && Assignable(db, db.pools[client.pool], ChallengedKey(db, client, c.session), c.attrs)
  }

  /** The user a response leaves, and the events before its tokens. */
  lemma {:induction false} RespondExactly(db: Tables, next: Id, now: nat, c: Cmd) returns (u: User, before: seq<Event>)
    requires c.RespondToChallenge? && UsersFit(db)
    ensures var t := RespondTxn(db, next, now, c);
            && (t.Ok? <==> Accepted(db, now, c))
            && (t.Ok? ==>
                  var client := db.clients[c.client];
                  var i := IssueTokens(next, now, client, u, OptsOf(SelfService(now), FromChallenge(c.session)));
                  && Updated(Rescued(db.users[ChallengedKey(db, client, c.session)], c.password), u, c.attrs)
                  && EffectAll(db, before) == Answered(db, c.session, u)
                  && t.value == Issued(i.value) && t.events == before + i.events)
  {
    hide Effect;
    hide IssueTokens;
    hide AnswerTxn;
    hide UpdateAttributes;
    hide Updated;
    hide Assignable;
    hide Answerable;
    u, before := User(UserKey(0, Login("")), 0, map[], None, UNCONFIRMED, true, 0), [];
    if c.challenge == NewPasswordRequired && AppPool(db, c.client, c.optPool) {
      var client := db.clients[c.client];
      var settings := db.pools[client.pool];
      AnswerExactly(db, now, client, c.challenge, c.session, c.password, c.conforms);
      var s := AnswerTxn(db, now, client, c.challenge, c.session, c.password, c.conforms);
      if s.Ok? {
        AnswerableThere(db, now, client, c.session, c.challenge);
        var db' := EffectAll(db, s.events);
        AnswerNone(s.value, db, settings, c.attrs);
        if c.attrs == [] {
          u, before := s.value, s.events + [];
          assert before == s.events;
        } else {
          UpdatedBy(db', settings, s.value, c.attrs);
          OthersEmails(db, db', settings, s.value, c.attrs);
          var t := UpdateAttributes(db', settings, s.value, c.attrs);
          if t.Ok? {
            u, before := t.value, s.events + t.events;
            UpdatedKey(s.value, u, c.attrs);
            EffectConcat(db, s.events, t.events);
            EffectOne(db', UserSaved(u));
            SaveEffect(db', u);
          }
        }
      }
    }
  }

  lemma {:induction false} AnswerableThere(db: Tables, now: nat, client: Client, session: Id, name: ChallengeName)
    requires Answerable(db, now, client, session, name)
    ensures session in db.challenges && ChallengedKey(db, client, session) in db.users
  {
  }

  lemma {:induction false} UpdatedKey(u: User, u': User, attrs: seq<(string, string)>)
    requires Updated(u, u', attrs)
    ensures u'.key == u.key
  {
    assert u' == u.(attributes := u'.attributes);
  }

  /** No attributes, no change. */
  lemma {:induction false} AnswerNone(u: User, db: Tables, settings: Pool, attrs: seq<(string, string)>)
    ensures attrs == [] ==> Updated(u, u, attrs) && Assignable(db, settings, u.key, attrs)
  {
    AssignedNone(u, false, false);
  }

  /** RESPOND. A response to a challenge is answered, with tokens as for a sign-in, exactly if it is accepted; the user
      has then the new password and the given attributes, and the challenge is used up. */
  lemma {:induction false} ChallengeResponded(w: World, now: nat, c: Cmd) returns (u: User)
    requires Reached(w) && c.RespondToChallenge?
    ensures var s := Step(w, now, c);
            && (s.1.Replied? <==> Accepted(w.db, now, c))
            && (s.1.Replied? ==>
                  var client := w.db.clients[c.client];
                  && Updated(Rescued(w.db.users[ChallengedKey(w.db, client, c.session)], c.password), u, c.attrs)
                  && s.1.reply.Issued?
                  && Issues(w, s.0, Answered(w.db, c.session, u), s.1.reply.tokens, now, client, u, SelfService(now)))
  {
    hide Step;
    hide Effect;
    hide IssueTokens;
    hide Issues;
    hide RespondTxn;
    hide Updated;
    ReachedRows(w);
    ServiceStep(w, now, c);
    var before;
    u, before := RespondExactly(w.db, w.next, now, c);
    if RespondTxn(w.db, w.next, now, c).Ok? {
      IssueLaw(w, before, now, w.db.clients[c.client], u, SelfService(now), FromChallenge(c.session));
    }
  }

  // ---- Hosted UI ----

  /** An authorize request is let through exactly if it is approvable, and is then held as asked. */
  lemma {:induction false} AuthorizeRequested(w: World, now: nat, c: Id, q: Query) returns (a: Approval)
    ensures var s := Step(w, now, Prepare(c, q));
            var pid := w.next + STRIDE - 1;
            && (s.1.Replied? <==> Approvable(w.db, c, q))
            && (s.1.Replied? ==>
                  && AsAsked(a, w.db.clients[c], q)
                  && s.1.reply == Proceed(pid) && s.0.procs == w.procs[pid := Authorizing(a)])
            && s.0.db == w.db
  {
    hide ApiTxn;
    hide ProcHop;
    hide PrepareTxn;
    hide Approvable;
    hide AsAsked;
    ApprovedExactly(w.db, c, q);
    var t := PrepareTxn(w.db, c, q);
    if t.Ok? {
      a := t.value;
      EffectOne(w.db, Approved(a));
    } else {
      a := Approval(Client(0, 0, None, false, {}, [], [], None, {}, false, 0, 0, 0, 0), "", [], false, None, None, None);
    }
  }

  /** The session is of this pool and unexpired, and its user there, enabled and confirmed. */
  predicate Resumable(db: Tables, now: nat, p: Id, session: Id) {
    && session in db.sessions
    && var row := db.sessions[session];
    && row.owner.pool == p && now <= row.expiresAt
    && row.owner in db.users && db.users[row.owner].enabled && db.users[row.owner].status == CONFIRMED
  }

  /** A browser session takes the place of a password. */
  lemma {:induction false} SessionResumed(w: World, now: nat, pid: Id, a: Approval, session: Id)
    requires pid in w.procs && w.procs[pid] == Authorizing(a)
    ensures var s := Step(w, now, ResumeSession(pid, session));
            var ok := Resumable(w.db, now, a.client.pool, session);
            && Outcome(w, s, ok, Done, w.db)
            && (ok ==> var row := w.db.sessions[session];
                       s.0.procs == w.procs[pid := Completing(a, w.db.users[row.owner], row.authTime)])
  {
    hide Step;
    ProcStep(w, now, ResumeSession(pid, session));
    assert EffectAll(w.db, []) == w.db;
  }

  /** PASSWORD at the hosted UI: goes on with a stored, enabled, confirmed user of the client's pool who has this
      password; one who must choose a new password gets a challenge. */
  lemma {:induction false} PasswordPresented(w: World, now: nat, pid: Id, a: Approval, name: Username, password: string)
    requires Reached(w) && pid in w.procs && w.procs[pid] == Authorizing(a)
    ensures var s := Step(w, now, SignIn(pid, name, password));
            var k := UserKey(a.client.pool, name);
            && (s.1.Replied? <==>
                  PasswordRight(w.db, k, password) && w.db.users[k].status in {CONFIRMED, FORCE_CHANGE_PASSWORD})
            && (s.1.Replied? && w.db.users[k].status == CONFIRMED ==>
                  s.1.reply == Done && s.0.db == w.db && s.0.procs == w.procs[pid := SignedIn(a, w.db.users[k])])
            && (s.1.Replied? && w.db.users[k].status != CONFIRMED ==>
                  && s.1.reply == Challenged(w.next) && s.0.procs == w.procs - {pid}
                  && s.0.db == WithChallenge(w.db, w.next, now, a.client, k))
  {
    hide Step;
    hide Effect;
    hide CreateChallenge;
    ReachedRows(w);
    ProcStep(w, now, SignIn(pid, name, password));
    var k := UserKey(a.client.pool, name);
    if k in w.db.users {
      ChallengeEffect(w.db, w.next, now, a.client, w.db.users[k]);
    }
    assert EffectAll(w.db, []) == w.db;
  }

  /** CHALLENGE at the hosted UI: the user goes on with the new password stored. */
  lemma {:induction false} NewPasswordChosen(w: World, now: nat, pid: Id, a: Approval, session: Id, pw: string,
                                             conforms: bool)
    requires Reached(w) && pid in w.procs && w.procs[pid] == Authorizing(a)
    ensures var s := Step(w, now, AnswerChallenge(pid, session, pw, conforms));
            var ok := Answerable(w.db, now, a.client, session, NewPasswordRequired) && conforms;
            if ok then
              var u := Rescued(w.db.users[ChallengedKey(w.db, a.client, session)], pw);
              && Outcome(w, s, ok, Done, Answered(w.db, session, u))
              && s.0.procs == w.procs[pid := SignedIn(a, u)]
            else Outcome(w, s, ok, Done, w.db)
  {
    hide Step;
    hide Effect;
    hide AnswerTxn;
    ReachedRows(w);
    ProcStep(w, now, AnswerChallenge(pid, session, pw, conforms));
    AnswerExactly(w.db, now, a.client, NewPasswordRequired, session, pw, conforms);
  }

  /** A session of an hour starts with the sign-in. */
  lemma {:induction false} SessionOpened(w: World, now: nat, pid: Id, a: Approval, u: User)
    requires pid in w.procs && w.procs[pid] == SignedIn(a, u)
    ensures var s := Step(w, now, StartSession(pid));
            && Outcome(w, s, true, Done,
                       w.db.(sessions := w.db.sessions[w.next := SessionRow(u.key, now / 1000, now + 3600_000)]))
            && s.0.procs == w.procs[pid := Completing(a, u, now / 1000)]
  {
    hide Step;
    ProcStep(w, now, StartSession(pid));
    EffectOne(w.db, SessionStarted(w.next, now, SessionRow(u.key, now / 1000, now + 3600_000)));
  }

  /** The code of a login: for this client, redirect URI and challenge, and for five minutes. */
  function LoginCode(now: int, a: Approval, u: User, authTime: int): CodeRow {
    CodeRow(UserKey(a.client.pool, u.key.name), a.client.id, a.redirectUri, Join(a.scopes), a.challenge,
            a.challengeMethod, a.nonce, authTime, now + 300_000, false)
  }

  /** A login ends in a code, or in the implicit flow in an access token, and an identity token if asked for. */
  lemma {:induction false} LoginCompleted(w: World, now: nat, pid: Id, a: Approval, u: User, authTime: int)
    requires pid in w.procs && w.procs[pid] == Completing(a, u, authTime)
    ensures var s := Step(w, now, Complete(pid));
            if a.implicit then
              && s.1.Replied? && s.1.reply.Issued?
              && Issues(w, s.0, w.db, s.1.reply.tokens, now, a.client, u,
                        Grounds(a.scopes, authTime, a.nonce, OPENID in a.scopes, false, None))
            else Outcome(w, s, true, CodeReply(w.next),
                         w.db.(codes := w.db.codes[w.next := LoginCode(now, a, u, authTime)]))
  {
    hide Step;
    hide Effect;
    hide IssueTokens;
    hide Issues;
    hide Join;
    ProcStep(w, now, Complete(pid));
    if a.implicit {
      var g := Grounds(a.scopes, authTime, a.nonce, OPENID in a.scopes, false, None);
      var h := ProcHop(w.db, w.next, now, w.procs[pid], Complete(pid));
      IssueLaw(w, [], now, a.client, u, g, FromImplicit);
      LandedIssue(w, pid, h, w.db, h.txn.value.tokens, now, a.client, u, g);
    } else {
      CodeEffect(w.db, CodeIssued(w.next, now, LoginCode(now, a, u, authTime)));
    }
  }

  lemma {:induction false} CodeEffect(db: Tables, e: Event)
    requires e.CodeIssued?
    ensures EffectAll(db, [e]) == db.(codes := db.codes[e.id := e.code])
  {
    EffectOne(db, e);
  }

  // ---- Code exchange ----

  /** The code is redeemable by this client, whose pool and enabled user are there. */
  predicate Exchangeable(db: Tables, now: nat, client: Client, code: Id, uri: string, v: Option<Verifier>) {
    && CodeFlowOn(client) && code in db.codes && Redeemable(db.codes[code], now, client, uri, v)
    && client.pool in db.pools
    && var k := UserKey(client.pool, db.codes[code].owner.name);
       k in db.users && db.users[k].enabled
  }

  function CodeGrounds(row: CodeRow): Grounds {
    var scopes := Words(row.scope);
    Grounds(scopes, row.authTime, row.nonce, OPENID in scopes, true, None)
  }

  lemma {:induction false} ExchangeExactly(db: Tables, next: Id, now: nat, client: Client, code: Id, uri: string,
                                           v: Option<Verifier>)
    requires CodeFlowOn(client)
    ensures var t := ExchangeCodeTxn(db, next, now, client, code, uri, v);
            && (t.Ok? && t.value.Issued? <==> Exchangeable(db, now, client, code, uri, v))
            && (t.Ok? && t.value.Issued? ==>
                  var u := db.users[UserKey(client.pool, db.codes[code].owner.name)];
                  var i := IssueTokens(next, now, client, u, OptsOf(CodeGrounds(db.codes[code]), FromCode(code)));
                  t.value == Issued(i.value) && t.events == [CodeTaken(code)] + i.events)
  {
    hide IssueTokens;
    hide Words;
    hide PkceHolds;
    hide ChallengeMet;
    if code in db.codes {
      PkceExactly(db.codes[code], v);
    }
  }

  /** EXCHANGE. The token endpoint gives tokens for a code exactly if it is exchangeable: an access token, an identity
      token if `openid` was approved, and a refresh token, of a new family, on what was approved; the code is marked. */
  lemma {:induction false} CodeExchanged(w: World, now: nat, pid: Id, client: Client, code: Id, uri: string,
                                         v: Option<Verifier>)
    requires pid in w.procs && w.procs[pid] == ClientReady(client)
    ensures var s := Step(w, now, ExchangeCode(pid, code, uri, v));
            && (s.1.Replied? && s.1.reply.Issued? <==> Exchangeable(w.db, now, client, code, uri, v))
            && (s.1.Replied? && s.1.reply.Issued? ==>
                  var u := w.db.users[UserKey(client.pool, w.db.codes[code].owner.name)];
                  Issues(w, s.0, w.db.(codes := w.db.codes[code := w.db.codes[code].(used := true)]), s.1.reply.tokens, now,
                         client, u, CodeGrounds(w.db.codes[code])))
  {
    hide Step;
    hide Effect;
    hide IssueTokens;
    hide Issues;
    hide ExchangeCodeTxn;
    hide Redeemable;
    ProcStep(w, now, ExchangeCode(pid, code, uri, v));
    if CodeFlowOn(client) {
      ExchangeExactly(w.db, w.next, now, client, code, uri, v);
      if Exchangeable(w.db, now, client, code, uri, v) {
        var u, g := w.db.users[UserKey(client.pool, w.db.codes[code].owner.name)], CodeGrounds(w.db.codes[code]);
        var h := ProcHop(w.db, w.next, now, w.procs[pid], ExchangeCode(pid, code, uri, v));
        IssueLaw(w, [CodeTaken(code)], now, client, u, g, FromCode(code));
        TakenEffect(w.db, code);
        LandedIssue(w, pid, h, EffectAll(w.db, [CodeTaken(code)]), h.txn.value.tokens, now, client, u, g);
      }
    }
  }

  lemma {:induction false} TakenEffect(db: Tables, code: Id)
    requires code in db.codes
    ensures EffectAll(db, [CodeTaken(code)]) == db.(codes := db.codes[code := db.codes[code].(used := true)])
  {
    EffectOne(db, CodeTaken(code));
  }

  // ---- Client credentials ----

  /** A scope of a resource server has a slash in its name. */
  predicate ForClients(client: Client, scope: string) { scope in client.scopes && '/' in scope }

  /** The scopes a client may have for itself: those asked for, or all there are. */
  predicate MayHave(client: Client, scope: Option<string>, granted: seq<string>) {
    && granted != [] && (forall s :: s in granted ==> ForClients(client, s))
    && (if scope.Some? then granted == Words(scope.value)
        else multiset(granted) == multiset(client.scopes) - multiset(Slashless(client.scopes)))
  }

  function Slashless(scopes: seq<string>): seq<string> {
    if scopes == [] then [] else (if '/' in scopes[0] then [] else [scopes[0]]) + Slashless(scopes[1..])
  }

  lemma {:induction false} WithSlashIs(scopes: seq<string>)
    ensures forall s :: s in WithSlash(scopes) <==> s in scopes && '/' in s
    ensures multiset(WithSlash(scopes)) == multiset(scopes) - multiset(Slashless(scopes))
    ensures multiset(Slashless(scopes)) <= multiset(scopes)
  {
    if scopes != [] {
      WithSlashIs(scopes[1..]);
      assert scopes == [scopes[0]] + scopes[1..];
    }
  }

  lemma {:induction false} MayHaveIs(client: Client, scope: Option<string>, granted: seq<string>)
    requires granted == if scope.Some? then Words(scope.value) else WithSlash(client.scopes)
    ensures MayHave(client, scope, granted) <==> granted != [] && AllIn(granted, WithSlash(client.scopes))
  {
    hide Words;
    hide WithSlash;
    hide Slashless;
    WithSlashIs(client.scopes);
    AllInIs(granted, WithSlash(client.scopes));
  }

  lemma {:induction false} CredentialsExactly(next: Id, now: nat, client: Client, scope: Option<string>)
    returns (granted: seq<string>)
    ensures granted == if scope.Some? then Words(scope.value) else WithSlash(client.scopes)
    ensures var t, iat := CredentialsTxn(next, now, client, scope), now / 1000;
            && (t.Ok? <==>
                  client.secret.Some? && client.oauthEnabled && CredentialsFlow in client.oauthFlows
                  && MayHave(client, scope, granted))
            && (t.Ok? ==>
                  var token := ClientAccess(next, client.pool, client.id, Join(granted), iat, iat + client.accessTtl);
                  t.value == ClientTokenReply(token) && t.events == [Minted(token)])
  {
    hide Words;
    hide Join;
    hide AllIn;
    hide MayHave;
    hide WithSlash;
    granted := if scope.Some? then Words(scope.value) else WithSlash(client.scopes);
    MayHaveIs(client, scope, granted);
  }

  /** CREDENTIALS. A client gets a token for itself exactly if it has a secret, the flow is on, and it may have the
      scopes it asks for, or any at all if it asks for none; the token carries those, for its pool, and lives as long as
      the client says. No table changes. */
  lemma {:induction false} CredentialsGranted(w: World, now: nat, pid: Id, client: Client, scope: Option<string>)
    returns (granted: seq<string>)
    requires pid in w.procs && w.procs[pid] == ClientReady(client)
    ensures granted == if scope.Some? then Words(scope.value) else WithSlash(client.scopes)
    ensures var s := Step(w, now, ExchangeCredentials(pid, scope));
            var iat := now / 1000;
            && (s.1.Replied? <==>
                  client.secret.Some? && client.oauthEnabled && CredentialsFlow in client.oauthFlows
                  && MayHave(client, scope, granted))
            && (s.1.Replied? ==>
                  var t := ClientAccess(w.next, client.pool, client.id, Join(granted), iat, iat + client.accessTtl);
                  s.1.reply == ClientTokenReply(t) && Minted(t) in s.0.log)
            && s.0.db == w.db
  {
    hide Step;
    hide Words;
    hide Join;
    hide MayHave;
    hide WithSlash;
    hide CredentialsTxn;
    hide Effect;
    ProcStep(w, now, ExchangeCredentials(pid, scope));
    granted := CredentialsExactly(w.next, now, client, scope);
    var t := CredentialsTxn(w.next, now, client, scope);
    if t.Ok? {
      MintLeaves(w.db, t.events[0].token);
      assert t.events[0] in w.log + t.events;
    }
  }

  lemma {:induction false} MintLeaves(db: Tables, t: Token)
    ensures EffectAll(db, [Minted(t)]) == db
  {
    EffectOne(db, Minted(t));
  }

  // ---- Logins over a run ----

  /** The user and approval of a login that is past its password. */
  predicate PastPassword(p: Proc, a: Approval, u: User) {
    (p.SignedIn? || p.Completing?) && p.approval == a && p.user == u
  }

  /** This request shows who the user is: the password, a challenge answered, or a session. */
  ghost predicate Shows(w: World, now: nat, c: Cmd, pid: Id, a: Approval, u: User) {
    && pid in w.procs && w.procs[pid] == Authorizing(a)
    && match c {
         case SignIn(q, name, password) =>
           var k := UserKey(a.client.pool, name);
           q == pid && PasswordRight(w.db, k, password) && w.db.users[k] == u && u.status == CONFIRMED
         case AnswerChallenge(q, session, password, conforms) =>
           && q == pid && conforms && Answerable(w.db, now, a.client, session, NewPasswordRequired)
           && u == Rescued(w.db.users[ChallengedKey(w.db, a.client, session)], password)
         case ResumeSession(q, session) =>
           && q == pid && Resumable(w.db, now, a.client.pool, session)
           && u == w.db.users[w.db.sessions[session].owner]
         case _ => false
       }
  }

  /** A login gets past its password only by such a request. */
  lemma {:induction false} PastStep(w: World, now: nat, c: Cmd, pid: Id, a: Approval, u: User)
    requires Reached(w)
    requires pid in Step(w, now, c).0.procs && PastPassword(Step(w, now, c).0.procs[pid], a, u)
    ensures (pid in w.procs && PastPassword(w.procs[pid], a, u)) || Shows(w, now, c, pid, a, u)
  {
    hide Step;
    hide Answerable;
    hide Resumable;
    hide PasswordRight;
    if c.SignIn? || c.AnswerChallenge? || c.ResumeSession? || c.StartSession? || c.Complete? {
      LoginStepKeeps(w, now, c, pid, a, u);
    } else {
      OtherStepKeeps(w, now, c, pid, a, u);
    }
  }

  lemma {:induction false} OtherStepKeeps(w: World, now: nat, c: Cmd, pid: Id, a: Approval, u: User)
    requires !(c.SignIn? || c.AnswerChallenge? || c.ResumeSession? || c.StartSession? || c.Complete?)
    requires pid in Step(w, now, c).0.procs && PastPassword(Step(w, now, c).0.procs[pid], a, u)
    ensures pid in w.procs && PastPassword(w.procs[pid], a, u)
  {
    hide ApiTxn;
    hide PrepareTxn;
    hide EffectAll;
    hide ExchangeCodeTxn;
    hide CredentialsTxn;
    hide CognitoService.Refresh;
    hide RevokeRefresh;
  }

  lemma {:induction false} LoginStepKeeps(w: World, now: nat, c: Cmd, pid: Id, a: Approval, u: User)
    requires Reached(w) && (c.SignIn? || c.AnswerChallenge? || c.ResumeSession? || c.StartSession? || c.Complete?)
    requires pid in Step(w, now, c).0.procs && PastPassword(Step(w, now, c).0.procs[pid], a, u)
    ensures (pid in w.procs && PastPassword(w.procs[pid], a, u)) || Shows(w, now, c, pid, a, u)
  {
    hide Step;
    hide ProcHop;
    hide Shows;
    hide Commit;
    if c.proc in w.procs {
      ProcStep(w, now, c);
      var h := ProcHop(w.db, w.next, now, w.procs[c.proc], c);
      if pid == c.proc && h.txn.Ok? && h.then_.Some? {
        HopPast(w, now, c, a, u);
      }
    } else {
      NoSuchRequest(w, now, c);
    }
  }

  ghost predicate HopsPast(w: World, now: nat, c: Cmd, a: Approval, u: User)
    requires !IsApi(c) && !c.Prepare? && !c.ClientAuth? && c.proc in w.procs
  {
    var h := ProcHop(w.db, w.next, now, w.procs[c.proc], c);
    h.txn.Ok? && h.then_.Some? && PastPassword(h.then_.value, a, u)
  }

  lemma {:induction false} HopPast(w: World, now: nat, c: Cmd, a: Approval, u: User)
    requires Reached(w) && (c.SignIn? || c.AnswerChallenge? || c.ResumeSession? || c.StartSession? || c.Complete?)
    requires c.proc in w.procs && HopsPast(w, now, c, a, u)
    ensures PastPassword(w.procs[c.proc], a, u) || Shows(w, now, c, c.proc, a, u)
  {
    hide HopsPast;
    hide Shows;
    match c
    case SignIn(_, _, _) => SignInPast(w, now, c, a, u);
    case AnswerChallenge(_, _, _, _) => AnswerPast(w, now, c, a, u);
    case ResumeSession(_, _) => ResumePast(w, now, c, a, u);
    case StartSession(_) => StartPast(w, now, c, a, u);
    case Complete(_) => StartPast(w, now, c, a, u);
  }

  lemma {:induction false} SignInPast(w: World, now: nat, c: Cmd, a: Approval, u: User)
    requires c.SignIn? && c.proc in w.procs && HopsPast(w, now, c, a, u)
    ensures Shows(w, now, c, c.proc, a, u)
  {
  }

  lemma {:induction false} AnswerPast(w: World, now: nat, c: Cmd, a: Approval, u: User)
    requires Reached(w) && c.AnswerChallenge? && c.proc in w.procs && HopsPast(w, now, c, a, u)
    ensures Shows(w, now, c, c.proc, a, u)
  {
    hide AnswerTxn;
    ReachedRows(w);
    if w.procs[c.proc].Authorizing? {
      AnswerExactly(w.db, now, w.procs[c.proc].approval.client, NewPasswordRequired, c.session, c.password, c.conforms);
    }
  }

  lemma {:induction false} ResumePast(w: World, now: nat, c: Cmd, a: Approval, u: User)
    requires c.ResumeSession? && c.proc in w.procs && HopsPast(w, now, c, a, u)
    ensures Shows(w, now, c, c.proc, a, u)
  {
  }

  lemma {:induction false} StartPast(w: World, now: nat, c: Cmd, a: Approval, u: User)
    requires (c.StartSession? || c.Complete?) && c.proc in w.procs && HopsPast(w, now, c, a, u)
    ensures PastPassword(w.procs[c.proc], a, u)
  {
  }

  /** LOGIN. Over every run, a login past its password got there by an earlier request that showed, while the login was
      waiting for it, who its user is. */
  lemma {:induction false} LoginWasShown(steps: seq<Timed>, pid: Id, a: Approval, u: User) returns (j: nat)
    requires pid in Run(steps).procs && PastPassword(Run(steps).procs[pid], a, u)
    ensures j < |steps| && Shows(Run(steps[..j]), steps[j].now, steps[j].cmd, pid, a, u)
  {
    hide Step;
    hide Shows;
    var front, last := steps[..|steps| - 1], steps[|steps| - 1];
    assert Reached(Run(front));
    PastStep(Run(front), last.now, last.cmd, pid, a, u);
    if pid in Run(front).procs && PastPassword(Run(front).procs[pid], a, u) {
      j := LoginWasShown(front, pid, a, u);
      assert front[..j] == steps[..j] && front[j] == steps[j];
    } else {
      j := |front|;
    }
  }
}
