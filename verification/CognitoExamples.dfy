/** Runs, step by step, that reach the corners the theorems point at: exchanges that fail without consuming their
    code, and logins overtaken by a deletion that end in tokens of, or for, someone else. */
module CognitoExamples {
  import opened Options
  import opened Text
  import opened CognitoTables
  import opened CognitoGrants
  import opened CognitoService
  import opened CognitoLog
  import opened CognitoServer
  import opened CognitoTheorems

  const POOL := Pool([], [], false, false)
  const APP := Client(8, 0, None, true, {CodeFlow, ImplicitFlow}, ["s"], ["u"], Some("u"), {}, false, 60, 60, 60, 3)
  const ANN := UserKey(0, Login("ann"))

  function NewAnn(sub: Id): User { User(ANN, sub, map[], Some("pw"), FORCE_CHANGE_PASSWORD, true, 0) }

  const SIGNED_UP := NewAnn(16).(status := CONFIRMED)

  function Ask(implicit: bool): Query {
    Query(None, None, if implicit then TokenResponse else CodeResponse, None, NoMethod, None)
  }

  function Granted(implicit: bool): Approval { Approval(APP, "u", ["s"], implicit, None, None, None) }

  const CREATE_ANN := AdminCreateUser(0, "ann", [], "pw", true, false, false)

  /** A pool, a client, a user; a login up to its last step; a client ready to exchange. */
  function Opening(implicit: bool): seq<Cmd> {
    [CreatePool(POOL), CreateClient(APP), CREATE_ANN, AdminSetPassword(ANN, "pw", true, true),
     Prepare(8, Ask(implicit)), SignIn(39, Login("ann"), "pw"), StartSession(39), ClientAuth(8, None)]
  }

  /** All at time 0. */
  function Play(cmds: seq<Cmd>): seq<Timed> { seq(|cmds|, i requires 0 <= i < |cmds| => Timed(0, cmds[i])) }

  /** The parts of the world the story is about. */
  predicate At(w: World, next: Id, pools: map<Id, Pool>, clients: map<Id, Client>, users: map<UserKey, User>,
               procs: map<Id, Proc>) {
    w.next == next && w.db.pools == pools && w.db.clients == clients && w.db.users == users && w.procs == procs
  }

  lemma {:induction false} PlaySnoc(cmds: seq<Cmd>, c: Cmd)
    ensures Run(Play(cmds + [c])) == Step(Run(Play(cmds)), 0, c).0
  {
    hide Step;
    assert Play(cmds + [c]) == Play(cmds) + [Timed(0, c)];
    RunSnoc(Play(cmds), Timed(0, c));
  }

  // ---- The opening, step by step ----

  lemma {:induction false} Directory(w: World)
    requires At(w, 0, map[], map[], map[], map[])
    ensures At(Step(w, 0, CreatePool(POOL)).0, 8, map[0 := POOL], map[], map[], map[])
  {
    EffectOne(w.db, PoolSaved(0, POOL));
  }

  lemma {:induction false} AddApp(w: World)
    requires At(w, 8, map[0 := POOL], map[], map[], map[])
    ensures At(Step(w, 0, CreateClient(APP)).0, 16, map[0 := POOL], map[8 := APP], map[], map[])
  {
    EffectOne(w.db, ClientSaved(APP));
  }

  lemma {:induction false} AddAnn(w: World, procs: map<Id, Proc>)
    requires At(w, w.next, map[0 := POOL], map[8 := APP], map[], procs)
    ensures At(Step(w, 0, CREATE_ANN).0, w.next + 8, map[0 := POOL], map[8 := APP], map[ANN := NewAnn(w.next)], procs)
  {
    EffectOne(w.db, UserSaved(NewAnn(w.next)));
  }

  lemma {:induction false} SetAnn(w: World)
    requires At(w, 24, map[0 := POOL], map[8 := APP], map[ANN := NewAnn(16)], map[])
    ensures At(Step(w, 0, AdminSetPassword(ANN, "pw", true, true)).0, 32, map[0 := POOL], map[8 := APP],
               map[ANN := SIGNED_UP], map[])
  {
    EffectOne(w.db, UserSaved(SIGNED_UP));
  }

  lemma {:induction false} Authorize(w: World, implicit: bool)
    requires At(w, 32, map[0 := POOL], map[8 := APP], map[ANN := SIGNED_UP], map[])
    ensures At(Step(w, 0, Prepare(8, Ask(implicit))).0, 40, map[0 := POOL], map[8 := APP], map[ANN := SIGNED_UP],
               map[39 := Authorizing(Granted(implicit))])
  {
    assert PrepareTxn(w.db, 8, Ask(implicit)) == Ok(Granted(implicit), [Approved(Granted(implicit))]);
    EffectOne(w.db, Approved(Granted(implicit)));
  }

  lemma {:induction false} EnterPassword(w: World, a: Approval)
    requires a.client == APP && At(w, 40, map[0 := POOL], map[8 := APP], map[ANN := SIGNED_UP], map[39 := Authorizing(a)])
    ensures At(Step(w, 0, SignIn(39, Login("ann"), "pw")).0, 48, map[0 := POOL], map[8 := APP], map[ANN := SIGNED_UP],
               map[39 := SignedIn(a, SIGNED_UP)])
  {
    assert Authenticate(w.db, APP, ANN, "pw") == Ok(SignedInAs(SIGNED_UP), []);
  }

  lemma {:induction false} Begin(w: World, a: Approval)
    requires At(w, 48, map[0 := POOL], map[8 := APP], map[ANN := SIGNED_UP], map[39 := SignedIn(a, SIGNED_UP)])
    ensures At(Step(w, 0, StartSession(39)).0, 56, map[0 := POOL], map[8 := APP], map[ANN := SIGNED_UP],
               map[39 := Completing(a, SIGNED_UP, 0)])
  {
    EffectOne(w.db, SessionStarted(48, 0, SessionRow(ANN, 0, SESSION_TTL)));
  }

  lemma {:induction false} ShowSecret(w: World, p: Proc)
    requires At(w, 56, map[0 := POOL], map[8 := APP], map[ANN := SIGNED_UP], map[39 := p])
    ensures At(Step(w, 0, ClientAuth(8, None)).0, 64, map[0 := POOL], map[8 := APP], map[ANN := SIGNED_UP],
               map[39 := p, 63 := ClientReady(APP)])
  {
  }

  lemma {:induction false} Opened(implicit: bool)
    ensures At(Run(Play(Opening(implicit))), 64, map[0 := POOL], map[8 := APP], map[ANN := SIGNED_UP],
               map[39 := Completing(Granted(implicit), SIGNED_UP, 0), 63 := ClientReady(APP)])
  {
    hide Step;
    hide At;
    OpenedUser();
    var c := Opening(implicit);
    PlaySnoc(c[..4], c[4]);
    assert c[..5] == c[..4] + [c[4]] && c[..4] == OpeningUser();
    Authorize(Run(Play(c[..4])), implicit);
    PlaySnoc(c[..5], c[5]);
    assert c[..6] == c[..5] + [c[5]];
    EnterPassword(Run(Play(c[..5])), Granted(implicit));
    PlaySnoc(c[..6], c[6]);
    assert c[..7] == c[..6] + [c[6]];
    Begin(Run(Play(c[..6])), Granted(implicit));
    PlaySnoc(c[..7], c[7]);
    assert c == c[..7] + [c[7]];
    ShowSecret(Run(Play(c[..7])), Completing(Granted(implicit), SIGNED_UP, 0));
  }

  function OpeningUser(): seq<Cmd> {
    [CreatePool(POOL), CreateClient(APP), CREATE_ANN, AdminSetPassword(ANN, "pw", true, true)]
  }

  lemma {:induction false} OpenedUser()
    ensures At(Run(Play(OpeningUser())), 32, map[0 := POOL], map[8 := APP], map[ANN := SIGNED_UP], map[])
  {
    hide Step;
    var c := OpeningUser();
    assert Play(c[..0]) == [];
    PlaySnoc(c[..0], c[0]);
    assert c[..1] == c[..0] + [c[0]];
    Directory(Run(Play(c[..0])));
    PlaySnoc(c[..1], c[1]);
    assert c[..2] == c[..1] + [c[1]];
    AddApp(Run(Play(c[..1])));
    PlaySnoc(c[..2], c[2]);
    assert c[..3] == c[..2] + [c[2]];
    AddAnn(Run(Play(c[..2])), map[]);
    PlaySnoc(c[..3], c[3]);
    assert c == c[..3] + [c[3]];
    SetAnn(Run(Play(c[..3])));
  }

  // ---- A code outlives its pool ----

  const CODE := CodeRow(ANN, 8, "u", "s", None, None, None, 0, CODE_TTL, false)

  lemma {:induction false} PoolGoes(w: World, procs: map<Id, Proc>)
    requires At(w, 64, map[0 := POOL], map[8 := APP], map[ANN := SIGNED_UP], procs)
    ensures At(Step(w, 0, DeletePool(0)).0, 72, map[], map[], map[], procs)
  {
    EffectOne(w.db, PoolDeleted(0));
  }

  /** The last step of a login is one transaction on what the login carried. */
  lemma {:induction false} CompleteStep(w: World, pid: Id, a: Approval, u: User, authTime: int)
    requires pid in w.procs && w.procs[pid] == Completing(a, u, authTime) && CompleteTxn(w.next, 0, a, u, authTime).Ok?
    ensures var t := CompleteTxn(w.next, 0, a, u, authTime);
            Step(w, 0, Complete(pid)).0 == Commit(w, t.events).(procs := w.procs - {pid})
  {
    hide CompleteTxn;
    hide ApiTxn;
    hide EntryHop;
  }

  lemma {:induction false} CodeComes(w: World, p: Proc)
    requires At(w, 72, map[], map[], map[], map[39 := Completing(Granted(false), SIGNED_UP, 0), 63 := p])
    ensures var w' := Step(w, 0, Complete(39)).0;
            At(w', 80, map[], map[], map[], map[63 := p]) && 72 in w'.db.codes && w'.db.codes[72] == CODE
  {
    hide Step;
    assert Join(["s"]) == "s";
    CompleteStep(w, 39, Granted(false), SIGNED_UP, 0);
    EffectOne(w.db, CodeIssued(72, 0, CODE));
  }

  const ORPHAN := Opening(false) + [DeletePool(0)] + [Complete(39)]

  lemma {:induction false} OrphanCode()
    ensures var w := Run(Play(ORPHAN));
            && At(w, 80, map[], map[], map[], map[63 := ClientReady(APP)])
            && 72 in w.db.codes && w.db.codes[72] == CODE
  {
    hide Step;
    Opened(false);
    PlaySnoc(Opening(false), DeletePool(0));
    PoolGoes(Run(Play(Opening(false))), map[39 := Completing(Granted(false), SIGNED_UP, 0), 63 := ClientReady(APP)]);
    PlaySnoc(Opening(false) + [DeletePool(0)], Complete(39));
    CodeComes(Run(Play(Opening(false) + [DeletePool(0)])), ClientReady(APP));
  }

  lemma {:induction false} ExchangeOrphan(w: World, uri: string)
    requires w.db.pools == map[] && 72 in w.db.codes && w.db.codes[72] == CODE
    requires 63 in w.procs && w.procs[63] == ClientReady(APP)
    ensures var s := Step(w, 0, ExchangeCode(63, 72, uri, None));
            if uri == "u" then s.1 == Failed(ResourceNotFound) && s.0.db == w.db
            else s.1 == Replied(InvalidGrant) && s.0.db.codes == w.db.codes[72 := CODE.(used := true)]
  {
    hide Step;
    ExchangeStep(w, 0, 63, APP, 72, uri, None);
    ExchangeConsumesCode(w, 0, 63, APP, 72, uri, None);
  }

  /** KEPT. A login overtaken by the deletion of its pool issues a code; its exchange fails and consumes nothing,
      while the same exchange with any other redirect URI consumes it. */
  lemma {:induction false} PoolGoneKeepsCode(uri: string)
    ensures var w := Run(Play(ORPHAN));
            var s := Step(w, 0, ExchangeCode(63, 72, uri, None));
            && 72 in w.db.codes && !w.db.codes[72].used
            && if uri == "u" then s.1 == Failed(ResourceNotFound) && s.0.db == w.db
               else s.1 == Replied(InvalidGrant) && s.0.db.codes == w.db.codes[72 := w.db.codes[72].(used := true)]
  {
    hide Step;
    OrphanCode();
    ExchangeOrphan(Run(Play(ORPHAN)), uri);
  }

  // ---- A token for someone else ----

  lemma {:induction false} AnnGoes(w: World, procs: map<Id, Proc>)
    requires At(w, 64, map[0 := POOL], map[8 := APP], map[ANN := SIGNED_UP], procs)
    ensures At(Step(w, 0, AdminDeleteUser(ANN)).0, 72, map[0 := POOL], map[8 := APP], map[], procs)
  {
    EffectOne(w.db, UserDeleted(ANN));
  }

  const TOKEN := Access(81, 16, ANN, 8, 80, "s", 0, 0, 60)

  const FAMILY := FamilyStarted(80, ANN, 8, "s", 0, None, FromImplicit)

  lemma {:induction false} TokenEvents()
    ensures var t := CompleteTxn(80, 0, Granted(true), SIGNED_UP, 0); t.Ok? && t.events == [FAMILY] + [Minted(TOKEN)]
  {
    assert Join(["s"]) == "s";
    assert OPENID !in ["s"];
  }

  lemma {:induction false} TokenComes(w: World, p: Proc)
    requires At(w, 80, map[0 := POOL], map[8 := APP], map[ANN := NewAnn(72)],
                map[39 := Completing(Granted(true), SIGNED_UP, 0), 63 := p])
    ensures var w' := Step(w, 0, Complete(39)).0;
            && At(w', 88, map[0 := POOL], map[8 := APP], map[ANN := NewAnn(72)], map[63 := p])
            && 80 in w'.db.origins && !w'.db.origins[80].revoked && Minted(TOKEN) in w'.log
  {
    hide Step;
    hide CompleteTxn;
    hide CodesAfter;
    hide SessionsAfter;
    hide RefreshAfter;
    hide ChallengesAfter;
    hide VerifyAfter;
    TokenEvents();
    CompleteStep(w, 39, Granted(true), SIGNED_UP, 0);
    EffectTwo(w.db, FAMILY, Minted(TOKEN));
    assert (w.log + ([FAMILY] + [Minted(TOKEN)]))[|w.log| + 1] == Minted(TOKEN);
  }

  const STALE := Opening(true) + [AdminDeleteUser(ANN)] + [CREATE_ANN] + [Complete(39)]

  /** STALE. A login in the implicit flow overtaken by the deletion and re-creation of its user ends in a token of
      the old user that is accepted for the new one. */
  lemma {:induction false} TokenForAnother()
    ensures var w := Run(Play(STALE));
            && Minted(TOKEN) in w.log && TOKEN.sub == 16
            && ValidateAccess(w.db, Minted(TOKEN) in w.log, TOKEN, 0) == Ok(NewAnn(72), [])
  {
    hide Step;
    var procs := map[39 := Completing(Granted(true), SIGNED_UP, 0), 63 := ClientReady(APP)];
    Opened(true);
    var c1 := Opening(true) + [AdminDeleteUser(ANN)];
    PlaySnoc(Opening(true), AdminDeleteUser(ANN));
    AnnGoes(Run(Play(Opening(true))), procs);
    PlaySnoc(c1, CREATE_ANN);
    AddAnn(Run(Play(c1)), procs);
    PlaySnoc(c1 + [CREATE_ANN], Complete(39));
    TokenComes(Run(Play(c1 + [CREATE_ANN])), ClientReady(APP));
  }

  // ---- A code for someone else ----

  const SWAPPED := CodeRow(ANN, 8, "u", "s", None, None, None, 0, CODE_TTL, false)

  /** The code row is issued, whoever is stored under the name by then. */
  lemma {:induction false} CodeIssuedAt(w: World, users: map<UserKey, User>, p: Proc)
    requires At(w, w.next, map[0 := POOL], map[8 := APP], users,
                map[39 := Completing(Granted(false), SIGNED_UP, 0), 63 := p])
    ensures var w' := Step(w, 0, Complete(39)).0;
            && At(w', w.next + 8, map[0 := POOL], map[8 := APP], users, map[63 := p])
            && w.next in w'.db.codes && w'.db.codes[w.next] == SWAPPED
  {
    hide Step;
    assert Join(["s"]) == "s";
    CompleteStep(w, 39, Granted(false), SIGNED_UP, 0);
    EffectOne(w.db, CodeIssued(w.next, 0, SWAPPED));
  }

  /** The answer is tokens of the user with this sub. */
  predicate TokensOf(a: Answer, sub: Id) {
    a.Replied? && a.reply.Issued? && a.reply.tokens.access.Access? && a.reply.tokens.access.sub == sub
  }

  const TAKEN_OVER := Opening(false) + [AdminDeleteUser(ANN)] + [CREATE_ANN]

  /** TAKEN OVER. A login overtaken by the deletion and re-creation of its user issues a code whose tokens are those
      of the new user. */
  lemma {:induction false} CodeForAnother()
    ensures var w0 := Run(Play(TAKEN_OVER));
            var w := Run(Play(TAKEN_OVER + [Complete(39)]));
            var s := Step(w, 0, ExchangeCode(63, 80, "u", None));
            && 39 in w0.procs && w0.procs[39] == Completing(Granted(false), SIGNED_UP, 0) && SIGNED_UP.sub == 16
            && TokensOf(s.1, 72)
  {
    hide Step;
    hide ExchangeCodeTxn;
    var procs := map[39 := Completing(Granted(false), SIGNED_UP, 0), 63 := ClientReady(APP)];
    var c := Opening(false) + [AdminDeleteUser(ANN)];
    Opened(false);
    PlaySnoc(Opening(false), AdminDeleteUser(ANN));
    AnnGoes(Run(Play(Opening(false))), procs);
    PlaySnoc(c, CREATE_ANN);
    AddAnn(Run(Play(c)), procs);
    PlaySnoc(TAKEN_OVER, Complete(39));
    CodeIssuedAt(Run(Play(TAKEN_OVER)), map[ANN := NewAnn(72)], ClientReady(APP));
    ExchangeSwapped(Run(Play(TAKEN_OVER + [Complete(39)])));
  }

  lemma {:induction false} ExchangeSwapped(w: World)
    requires At(w, 88, map[0 := POOL], map[8 := APP], map[ANN := NewAnn(72)], map[63 := ClientReady(APP)])
    requires 80 in w.db.codes && w.db.codes[80] == SWAPPED
    ensures var s := Step(w, 0, ExchangeCode(63, 80, "u", None));
            TokensOf(s.1, 72)
  {
    hide Step;
    ExchangeStep(w, 0, 63, APP, 80, "u", None);
    Redeemed(w.db, 88);
    IssuedFor(w.db, 88, 0, APP, 80, "u", None);
  }

  lemma {:induction false} Redeemed(db: Tables, next: Id)
    requires db.pools == map[0 := POOL] && db.users == map[ANN := NewAnn(72)] && 80 in db.codes && db.codes[80] == SWAPPED
    ensures var t := ExchangeCodeTxn(db, next, 0, APP, 80, "u", None); t.Ok? && t.value.Issued?
  {
    hide Words;
    hide IssueTokens;
  }

  // ---- A code kept by a client whose code flow is off ----

  const FLOWLESS := APP.(oauthFlows := {})

  lemma {:induction false} FlowGoes(w: World, procs: map<Id, Proc>)
    requires At(w, 72, map[0 := POOL], map[8 := APP], map[ANN := SIGNED_UP], procs)
    ensures var w' := Step(w, 0, UpdateClient(0, FLOWLESS)).0;
            At(w', 80, map[0 := POOL], map[8 := FLOWLESS], map[ANN := SIGNED_UP], procs) && w'.db.codes == w.db.codes
  {
    hide SessionsAfter;
    hide OriginsAfter;
    hide RefreshAfter;
    hide ChallengesAfter;
    hide VerifyAfter;
    hide ProcHop;
    hide EntryHop;
    EffectOne(w.db, ClientSaved(FLOWLESS));
  }

  lemma {:induction false} ShowAgain(w: World, p: Proc)
    requires At(w, 80, map[0 := POOL], map[8 := FLOWLESS], map[ANN := SIGNED_UP], map[63 := p])
    ensures var w' := Step(w, 0, ClientAuth(8, None)).0;
            && 87 in w'.procs && w'.procs[87] == ClientReady(FLOWLESS)
            && w'.db.codes == w.db.codes && w'.db.pools == w.db.pools
  {
    hide ProcHop;
    hide ApiTxn;
  }

  const SWITCHED_OFF := Opening(false) + [Complete(39)] + [UpdateClient(0, FLOWLESS)] + [ClientAuth(8, None)]

  /** REFUSED. A client whose code flow was switched off meanwhile is refused, and the code is kept, although the
      pool is there. */
  lemma {:induction false} FlowOffKeepsCode()
    ensures var w := Run(Play(SWITCHED_OFF));
            var s := Step(w, 0, ExchangeCode(87, 64, "u", None));
            && 64 in w.db.codes && !w.db.codes[64].used && 0 in w.db.pools
            && s.1 == Failed(UnauthorizedClient) && s.0.db == w.db
  {
    hide Step;
    hide ExchangeCodeTxn;
    var c1 := Opening(false) + [Complete(39)];
    var c2 := c1 + [UpdateClient(0, FLOWLESS)];
    Opened(false);
    PlaySnoc(Opening(false), Complete(39));
    CodeIssuedAt(Run(Play(Opening(false))), map[ANN := SIGNED_UP], ClientReady(APP));
    PlaySnoc(c1, UpdateClient(0, FLOWLESS));
    FlowGoes(Run(Play(c1)), map[63 := ClientReady(APP)]);
    PlaySnoc(c2, ClientAuth(8, None));
    ShowAgain(Run(Play(c2)), ClientReady(APP));
    ExchangeStep(Run(Play(SWITCHED_OFF)), 0, 87, FLOWLESS, 64, "u", None);
  }
}
