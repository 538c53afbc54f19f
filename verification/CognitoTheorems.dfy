/** What the grant and session machinery promises, over every run. */
module CognitoTheorems {
  import opened Options
  import opened Text
  import opened CognitoTables
  import opened CognitoGrants
  import opened CognitoService
  import opened CognitoLog
  import opened CognitoServer
  import opened CognitoGrowth
  import opened CognitoSteps
  import opened CognitoInvariant

  /** Histories that some run of the server can produce. */
  ghost predicate Reached(w: World) {
    exists steps :: w == Run(steps)
  }

  lemma {:induction false} ReachedInv(w: World)
    requires Reached(w)
    ensures Inv(w) && OrderlyLog(w.log) && Facts(w.log)
  {
    var steps :| w == Run(steps);
    RunInv(steps);
    SoundIsOrderly(w.log);
    FactsHold(w.log);
  }

  lemma {:induction false} ReachedSound(w: World)
    requires Reached(w)
    ensures SoundLog(w.log)
  {
    var steps :| w == Run(steps);
    RunInv(steps);
  }

  // ---- Rows keep what they were created with ----

  lemma {:induction false} SessionKept(log: seq<Event>, i: nat)
    requires OrderlyLog(log) && i < |log| && log[i].SessionStarted?
    ensures var db := Replay(log); log[i].id in db.sessions ==> db.sessions[log[i].id] == log[i].session
  {
    hide PoolsAfter;
    hide ClientsAfter;
    hide UsersAfter;
    hide CodesAfter;
    hide OriginsAfter;
    hide RefreshAfter;
    hide ChallengesAfter;
    hide VerifyAfter;
    var front, e := log[..|log| - 1], log[|log| - 1];
    if i < |front| {
      SessionKept(front, i);
      assert front[i] == log[i] && log[i].id in NewIds(front[i]);
      assert e.SessionStarted? ==> e.id in NewIds(e);
    }
  }

  lemma {:induction false} ChallengeKept(log: seq<Event>, i: nat)
    requires OrderlyLog(log) && i < |log| && log[i].ChallengeIssued?
    ensures var db := Replay(log); log[i].id in db.challenges ==> db.challenges[log[i].id] == log[i].challenge
  {
    hide PoolsAfter;
    hide ClientsAfter;
    hide UsersAfter;
    hide CodesAfter;
    hide SessionsAfter;
    hide OriginsAfter;
    hide RefreshAfter;
    hide VerifyAfter;
    var front, e := log[..|log| - 1], log[|log| - 1];
    if i < |front| {
      ChallengeKept(front, i);
      assert front[i] == log[i] && log[i].id in NewIds(front[i]);
      assert e.ChallengeIssued? ==> e.id in NewIds(e);
    }
  }

  lemma {:induction false} CodeKept(log: seq<Event>, i: nat)
    requires OrderlyLog(log) && i < |log| && log[i].CodeIssued?
    ensures var db := Replay(log);
            log[i].id in db.codes ==> db.codes[log[i].id].(used := log[i].code.used) == log[i].code
  {
    hide PoolsAfter;
    hide ClientsAfter;
    hide UsersAfter;
    hide SessionsAfter;
    hide OriginsAfter;
    hide RefreshAfter;
    hide ChallengesAfter;
    hide VerifyAfter;
    var front, e := log[..|log| - 1], log[|log| - 1];
    if i < |front| {
      CodeKept(front, i);
      assert front[i] == log[i] && log[i].id in NewIds(front[i]);
      assert e.CodeIssued? ==> e.id in NewIds(e);
    }
  }

  predicate StartsChallenge(e: Event, id: Id) {
    e.ChallengeIssued? && e.id == id
  }

  lemma {:induction false} ChallengeBorn(log: seq<Event>, id: Id)
    requires id in Replay(log).challenges
    ensures exists i :: 0 <= i < |log| && StartsChallenge(log[i], id)
  {
    var front, e := log[..|log| - 1], log[|log| - 1];
    if StartsChallenge(e, id) {
      assert StartsChallenge(log[|log| - 1], id);
    } else {
      ChallengeBorn(front, id);
      var i :| 0 <= i < |front| && StartsChallenge(front[i], id);
      assert StartsChallenge(log[i], id);
    }
  }

  // ---- Access tokens ----

  /** ACCESS. A minted access token is accepted exactly if it is unexpired, its pool and user exist, the
      user is enabled, and since the token was issued its family's refresh token was not revoked, the user
      was not signed out everywhere or deleted, and the pool was not deleted. Nothing ended the family
      between its start and the issue, so all tokens of a family share one fate. */
  lemma {:induction false} AccessTokenFate(w: World, i: nat, now: nat) returns (family: nat)
    requires Reached(w) && i < |w.log| && w.log[i].Minted? && w.log[i].token.Access?
    ensures family < i && FamilyOf(w.log[family], w.log[i].token)
    ensures var t, g := w.log[i].token, FamilyGrant(w.log[family]);
            && (ValidateAccess(w.db, Minted(t) in w.log, t, now).Ok? <==>
                  && Seconds(now) <= t.exp
                  && t.owner.pool in w.db.pools && t.owner in w.db.users && w.db.users[t.owner].enabled
                  && Unharmed(w.log, i + 1, g))
            && (ValidateAccess(w.db, Minted(t) in w.log, t, now).Ok? ==>
                  ValidateAccess(w.db, Minted(t) in w.log, t, now).value == w.db.users[t.owner])
            && (Unharmed(w.log, i + 1, g) <==> Unharmed(w.log, family + 1, g))
  {
    family := FamilyFate(w, i);
    assert Minted(w.log[i].token) in w.log;
  }

  /** The family a token was issued in, as it was then. */
  lemma {:induction false} FamilyAt(log: seq<Event>, i: nat) returns (family: nat)
    requires SoundLog(log) && i < |log| && log[i].Minted? && !log[i].token.ClientAccess?
    ensures family < i && Vouches(Replay(log[..i]), log[family], log[i].token) && SubKnown(log[..i], log[i].token.sub)
  {
    assert SoundHere(log, i);
    var j :| 0 <= j < i && Vouches(Replay(log[..i]), log[..i][j], log[i].token);
    family := j;
    assert log[..i][j] == log[j];
  }

  /** The row of a token's family is unrevoked exactly while nothing has ended the family. */
  lemma {:induction false} FamilyFate(w: World, i: nat) returns (family: nat)
    requires Reached(w) && i < |w.log| && w.log[i].Minted? && !w.log[i].token.ClientAccess?
    ensures family < i && FamilyOf(w.log[family], w.log[i].token)
    ensures var t, g := w.log[i].token, FamilyGrant(w.log[family]);
            && (!OriginRevoked(w.db, t.origin) <==> Unharmed(w.log, i + 1, g))
            && (Unharmed(w.log, i + 1, g) <==> Unharmed(w.log, family + 1, g))
  {
    hide SoundLog;
    ReachedInv(w);
    family := FamilyAt(w.log, i);
    var g := FamilyGrant(w.log[family]);
    FamilyUnharmed(w.log, family, i, g);
    GrantFate(w.log, family, g);
    RefreshLinked(w.log, family);
  }

  /** A family live when a token was issued had suffered nothing until then. */
  lemma {:induction false} FamilyUnharmed(log: seq<Event>, j: nat, i: nat, g: Grant)
    requires SoundLog(log) && j < i < |log| && log[i].Minted? && Bears(log[j], g)
    requires Live(Replay(log[..i]), g)
    ensures Unharmed(log, i + 1, g) <==> Unharmed(log, j + 1, g)
  {
    SoundPrefix(log, i);
    SoundIsOrderly(log[..i]);
    GrantFate(log[..i], j, g);
    assert Unharmed(log[..i], j + 1, g);
    if Unharmed(log, i + 1, g) {
      forall k | j + 1 <= k < |log| ensures !Kills(log[k], g) {
        if k < i {
          assert log[..i][k] == log[k];
        }
      }
    }
  }

  /** Nothing is ever accepted but a user's access token the server minted, in a family some login started before. */
  lemma {:induction false} OnlyMintedAccepted(w: World, t: Token, now: nat) returns (family: nat, i: nat)
    requires Reached(w) && ValidateAccess(w.db, Minted(t) in w.log, t, now).Ok?
    ensures family < i < |w.log| && w.log[i] == Minted(t) && t.Access? && FamilyOf(w.log[family], t)
  {
    i :| 0 <= i < |w.log| && w.log[i] == Minted(t);
    family := FamilyFate(w, i);
  }

  // ---- Whose token it is ----

  lemma {:induction false} SubStep(log: seq<Event>, e: Event, k: UserKey)
    requires Rule(log, e) && e != UserDeleted(k) && e != PoolDeleted(k.pool)
    ensures var users, users' := Replay(log).users, Replay(log + [e]).users;
            && (k in users ==> k in users' && users'[k].sub == users[k].sub)
            && (k !in users && k in users' ==> !SubKnown(log, users'[k].sub))
  {
    hide PoolsAfter;
    hide ClientsAfter;
    hide CodesAfter;
    hide SessionsAfter;
    hide OriginsAfter;
    hide RefreshAfter;
    hide ChallengesAfter;
    hide VerifyAfter;
    ReplayStep(log, e);
  }

  /** While neither is deleted, a stored user keeps its sub, and a new one gets a sub no one had. */
  ghost predicate SubHolds(log: seq<Event>, i: nat, k: UserKey)
    requires i <= |log|
  {
    var users, users' := Replay(log[..i]).users, Replay(log).users;
    && (k in users ==> k in users' && users'[k].sub == users[k].sub)
    && (k !in users && k in users' ==> !SubKnown(log[..i], users'[k].sub))
  }

  lemma {:induction false} SubKept(log: seq<Event>, i: nat, k: UserKey)
    requires SoundLog(log) && i <= |log|
    requires forall j :: i <= j < |log| ==> log[j] != UserDeleted(k) && log[j] != PoolDeleted(k.pool)
    ensures SubHolds(log, i, k)
    decreases |log|
  {
    if i == |log| {
      assert log[..i] == log;
    } else {
      var n := |log| - 1;
      SoundPrefix(log, n);
      SubKept(log[..n], i, k);
      assert SoundHere(log, n);
      SubStep(log[..n], log[n], k);
      SubHoldsStep(log[..n], log[n], i, k);
      assert log[..n] + [log[n]] == log;
    }
  }

  lemma {:induction false} SubHoldsStep(log: seq<Event>, e: Event, i: nat, k: UserKey)
    requires i <= |log| && SubHolds(log, i, k)
    requires var users, users' := Replay(log).users, Replay(log + [e]).users;
             && (k in users ==> k in users' && users'[k].sub == users[k].sub)
             && (k !in users && k in users' ==> !SubKnown(log, users'[k].sub))
    ensures SubHolds(log + [e], i, k)
  {
    hide Replay;
    assert (log + [e])[..i] == log[..i];
    KnownPrefix(log, i);
  }

  lemma {:induction false} KnownPrefix(log: seq<Event>, i: nat)
    requires i <= |log|
    ensures forall sub: Id :: SubKnown(log[..i], sub) ==> SubKnown(log, sub)
  {
    forall sub: Id | SubKnown(log[..i], sub)
      ensures SubKnown(log, sub)
    {
      KnownStill(log[..i], log[i..], sub);
      assert log[..i] + log[i..] == log;
    }
  }

  lemma {:induction false} DeletionKills(e: Event, g: Grant)
    requires !Kills(e, g)
    ensures e != UserDeleted(g.owner) && e != PoolDeleted(g.owner.pool)
  {
  }

  /** SUB. An accepted token names the user it is accepted for exactly when that user, with the token's sub, was the
      one stored when the token was issued. Only the implicit flow can fail this, by issuing for a user whom
      an earlier step of the login read. */
  lemma {:induction false} SubFate(w: World, i: nat, now: nat) returns (family: nat)
    requires Reached(w) && i < |w.log| && w.log[i].Minted? && w.log[i].token.Access?
    requires ValidateAccess(w.db, true, w.log[i].token, now).Ok?
    ensures family < i && FamilyOf(w.log[family], w.log[i].token)
    ensures var t := w.log[i].token;
            var u := ValidateAccess(w.db, true, t, now).value;
            && (u.sub == t.sub <==> Stored(Replay(w.log[..i]), t.owner, t.sub))
            && (!w.log[family].source.FromImplicit? ==> u.sub == t.sub)
  {
    hide SoundLog;
    hide Facts;
    hide Kills;
    ReachedInv(w);
    var t := w.log[i].token;
    assert Minted(t) in w.log;
    family := AccessTokenFate(w, i, now);
    var f := FamilyAt(w.log, i);
    OriginOnce(w.log, f, family);
    var g := FamilyGrant(w.log[family]);
    forall j | i <= j < |w.log|
      ensures w.log[j] != UserDeleted(t.owner) && w.log[j] != PoolDeleted(t.owner.pool)
    {
      if i < j {
        assert !Kills(w.log[j], g);
        DeletionKills(w.log[j], g);
      }
    }
    SubKept(w.log, i, t.owner);
  }

  // ---- Refresh tokens ----

  /** REFRESH. A refresh token is exchanged exactly if its own client presents it unexpired, its user exists
      and is enabled, and since issue there was no revocation, global sign-out, client deletion, user
      deletion or pool deletion. The new access token belongs to the same family and user. */
  lemma {:induction false} RefreshTokenFate(w: World, i: nat, client: Client, now: nat)
    requires Reached(w) && i < |w.log| && w.log[i].FamilyStarted? && w.log[i].grant.Some?
    requires ClientSaved(client) in w.log
    ensures var e := w.log[i];
            var r := e.grant.value;
            var t := CognitoService.Refresh(w.db, w.next, now, client, r.token);
            && (t.Ok? <==>
                  && client.id == e.clientId && now <= r.expiresAt
                  && e.owner in w.db.users && w.db.users[e.owner].enabled
                  && Unharmed(w.log, i + 1, Grant.Refresh(r.token, e.origin, e.owner, e.clientId)))
            && (t.Ok? ==> FamilyOf(e, t.value.access) && t.value.refresh == None)
  {
    hide Replay;
    ReachedInv(w);
    var e := w.log[i];
    var r := e.grant.value.token;
    var g := Grant.Refresh(r, e.origin, e.owner, e.clientId);
    GrantFate(w.log, i, g);
    OrderlyIsLinked(w.log);
    assert Linked(w.db, e);
    RefreshRowIs(w.log, i);
    if r in w.db.refresh && client.id == e.clientId {
      var _ := RefreshFamily(w.log, w.db, client, r);
      WordsStable(w.db.refresh[r].scope);
    }
  }

  /** A refresh row holds what its family was started with. */
  lemma {:induction false} RefreshRowIs(log: seq<Event>, i: nat)
    requires OrderlyLog(log) && i < |log| && log[i].FamilyStarted? && log[i].grant.Some?
    ensures var db := Replay(log);
            var token := log[i].grant.value.token;
            token in db.refresh ==> StartsRefresh(log[i], token, db.refresh[token])
  {
    hide PoolsAfter;
    hide ClientsAfter;
    hide UsersAfter;
    hide CodesAfter;
    hide SessionsAfter;
    hide OriginsAfter;
    hide ChallengesAfter;
    hide VerifyAfter;
    var front, e := log[..|log| - 1], log[|log| - 1];
    if i < |front| {
      RefreshRowIs(front, i);
      assert front[i] == log[i] && log[i].grant.value.token in NewIds(front[i]);
      assert e.FamilyStarted? && e.grant.Some? ==> e.grant.value.token in NewIds(e);
    }
  }

  /** Each family has at most one refresh token, in every reachable state. */
  lemma {:induction false} OneRefreshTokenPerFamily(w: World, r1: Id, r2: Id)
    requires Reached(w) && r1 in w.db.refresh && r2 in w.db.refresh
    requires w.db.refresh[r1].origin == w.db.refresh[r2].origin
    ensures r1 == r2
  {
    ReachedInv(w);
    OrderlyIsLinked(w.log);
    var i :| 0 <= i < |w.log| && StartsRefresh(w.log[i], r1, w.db.refresh[r1]);
    assert Linked(w.db, w.log[i]);
  }

  // ---- Authorization codes ----

  /** A code in the tables was issued, and whatever consumed it came later. */
  lemma {:induction false} CodeBirth(log: seq<Event>, k: nat) returns (b: nat)
    requires SoundLog(log) && k < |log| && log[k].CodeTaken?
    ensures b < k && log[b].CodeIssued? && log[b].id == log[k].id && !log[b].code.used
  {
    assert SoundHere(log, k);
    SoundPrefix(log, k);
    FactsHold(log[..k]);
    var j :| 0 <= j < k && StartsCode(log[..k][j], log[k].id, Replay(log[..k]).codes[log[k].id]);
    assert log[..k][j] == log[j];
    assert SoundHere(log, j);
    b := j;
  }

  /** Once consumed, a code is never live again. */
  lemma {:induction false} TakenIsDead(log: seq<Event>, k: nat)
    requires SoundLog(log) && k < |log| && log[k].CodeTaken?
    ensures log[k].id in Replay(log).codes ==> Replay(log).codes[log[k].id].used
  {
    SoundIsOrderly(log);
    var b := CodeBirth(log, k);
    GrantFate(log, b, Code(log[k].id, log[b].code.owner));
    CodeKept(log, b);
    assert Kills(log[k], Code(log[k].id, log[b].code.owner));
  }

  /** A family from a code follows the use of an unused code. */
  lemma {:induction false} RedeemHasUse(log: seq<Event>, j: nat, code: Id)
    requires SoundLog(log) && j < |log| && log[j].FamilyStarted? && log[j].source == FromCode(code)
    ensures 0 < j && log[j - 1] == CodeTaken(code)
    ensures code in Replay(log[..j - 1]).codes && !Replay(log[..j - 1]).codes[code].used
  {
    assert SoundHere(log, j);
    assert log[..j][..|log[..j]| - 1] == log[..j - 1] && log[..j][j - 1] == log[j - 1];
  }

  /** That use is the code's first. */
  lemma {:induction false} RedeemIsFirstUse(log: seq<Event>, j: nat, k: nat, code: Id)
    requires SoundLog(log) && j < |log| && log[j].FamilyStarted? && log[j].source == FromCode(code)
    requires k < |log| && log[k] == CodeTaken(code)
    ensures j - 1 <= k
  {
    RedeemHasUse(log, j, code);
    if k < j - 1 {
      SoundPrefix(log, j - 1);
      assert log[..j - 1][k] == log[k];
      TakenIsDead(log[..j - 1], k);
    }
  }

  /** CODE. Each authorization code yields at most one token family, over any interleaving. */
  lemma {:induction false} CodeRedeemedOnce(w: World, i: nat, j: nat, code: Id)
    requires Reached(w) && i < |w.log| && j < |w.log|
    requires w.log[i].FamilyStarted? && w.log[i].source == FromCode(code)
    requires w.log[j].FamilyStarted? && w.log[j].source == FromCode(code)
    ensures i == j
  {
    ReachedInv(w);
    RedeemHasUse(w.log, i, code);
    RedeemHasUse(w.log, j, code);
    RedeemIsFirstUse(w.log, j, i - 1, code);
    RedeemIsFirstUse(w.log, i, j - 1, code);
  }

  /** The verifier answers the challenge: under S256 its digest is the challenge, otherwise its text is. Without a
      challenge none is needed. */
  predicate ChallengeMet(challenge: Option<string>, m: Option<PkceMethod>, v: Option<Verifier>) {
    challenge.None? || (v.Some? && challenge.value == if m == Some(S256) then v.value.s256 else v.value.text)
  }

  lemma {:induction false} PkceExactly(row: CodeRow, v: Option<Verifier>)
    ensures PkceHolds(row, v) <==> ChallengeMet(row.challenge, row.challengeMethod, v)
  {
  }

  /** Everything about the exchange but the pool is in order. */
  predicate Redeemable(row: CodeRow, now: nat, client: Client, uri: string, v: Option<Verifier>) {
    !row.used && now <= row.expiresAt && row.client == client.id && row.redirectUri == uri
    && ChallengeMet(row.challenge, row.challengeMethod, v)
  }

  /** The exchange transaction consumes a stored code, except when it is in order but the pool is gone. */
  lemma {:induction false} ExchangeEffect(w: World, now: nat, client: Client, code: Id, uri: string,
                                          v: Option<Verifier>)
    requires code in w.db.codes
    ensures var t := ExchangeCodeTxn(w.db, w.next, now, client, code, uri, v);
            && (t.Err? <==> Redeemable(w.db.codes[code], now, client, uri, v) && client.pool !in w.db.pools)
            && (t.Ok? ==> t.events != [] && t.events[0] == CodeTaken(code) && (t.value == InvalidGrant || t.value.Issued?))
            && (t.Ok? ==> EffectAll(w.db, t.events).codes == w.db.codes[code := w.db.codes[code].(used := true)])
  {
    hide PkceHolds;
    hide PoolsAfter;
    hide ClientsAfter;
    hide UsersAfter;
    hide SessionsAfter;
    hide OriginsAfter;
    hide RefreshAfter;
    hide ChallengesAfter;
    hide VerifyAfter;
    hide Words;
    hide ChallengeMet;
    PkceExactly(w.db.codes[code], v);
    var t := ExchangeCodeTxn(w.db, w.next, now, client, code, uri, v);
    if t.Ok? {
      IssueLeavesCodes(Effect(w.db, t.events[0]), t.events[1..]);
    }
  }

  lemma {:induction false} IssueLeavesCodes(db: Tables, es: seq<Event>)
    requires forall e :: e in es ==> e.FamilyStarted? || e.Minted?
    ensures EffectAll(db, es).codes == db.codes
    decreases |es|
  {
    if es != [] {
      assert es[0] in es;
      IssueLeavesCodes(Effect(db, es[0]), es[1..]);
    }
  }

  predicate CodeFlowOn(client: Client) { client.oauthEnabled && CodeFlow in client.oauthFlows }

  /** The token endpoint's exchange step is its transaction, once the client's code flow is seen to be on. */
  lemma {:induction false} ExchangeStep(w: World, now: nat, pid: Id, client: Client, code: Id, uri: string,
                                        v: Option<Verifier>)
    requires pid in w.procs && w.procs[pid] == ClientReady(client)
    ensures var s := Step(w, now, ExchangeCode(pid, code, uri, v));
            var t := ExchangeCodeTxn(w.db, w.next, now, client, code, uri, v);
            if CodeFlowOn(client) then s.1 == AnswerTo(t) && s.0.db == (if t.Ok? then EffectAll(w.db, t.events) else w.db)
            else s.1 == Failed(UnauthorizedClient) && s.0.db == w.db
  {
    hide ExchangeCodeTxn;
    hide ApiTxn;
    hide EntryHop;
  }

  /** CONSUMED. An authenticated client that presents a stored code at the token endpoint consumes it, whether the
      answer is tokens or `invalid_grant`. The request fails, and consumes nothing, exactly when the client's code
      flow is off, or everything else is in order but the pool is gone. */
  lemma {:induction false} ExchangeConsumesCode(w: World, now: nat, pid: Id, client: Client, code: Id, uri: string,
                                                v: Option<Verifier>)
    requires code in w.db.codes && pid in w.procs && w.procs[pid] == ClientReady(client)
    ensures var s := Step(w, now, ExchangeCode(pid, code, uri, v));
            && (s.1.Failed? <==>
                  !CodeFlowOn(client) || (Redeemable(w.db.codes[code], now, client, uri, v) && client.pool !in w.db.pools))
            && s.0.db.codes == (if s.1.Failed? then w.db.codes else w.db.codes[code := w.db.codes[code].(used := true)])
            && (s.1.Replied? ==> s.1.reply == InvalidGrant || s.1.reply.Issued?)
  {
    hide Step;
    hide ExchangeCodeTxn;
    ExchangeStep(w, now, pid, client, code, uri, v);
    ExchangeEffect(w, now, client, code, uri, v);
  }

  /** Once consumed, a code never yields tokens again. */
  lemma {:induction false} ConsumedCodeIsDead(w: World, now: nat, client: Client, code: Id, uri: string,
                                              v: Option<Verifier>)
    requires Reached(w) && CodeTaken(code) in w.log
    ensures var t := ExchangeCodeTxn(w.db, w.next, now, client, code, uri, v); t.Ok? ==> t.value == InvalidGrant
  {
    ReachedInv(w);
    var k :| 0 <= k < |w.log| && w.log[k] == CodeTaken(code);
    TakenIsDead(w.log, k);
  }

  /** Steps only ever add to the history. */
  lemma {:induction false} StepGrows(w: World, now: nat, c: Cmd)
    ensures w.log <= Step(w, now, c).0.log
  {
  }

  lemma {:induction false} RunGrows(steps: seq<Timed>, more: seq<Timed>)
    ensures Run(steps).log <= Run(steps + more).log
  {
    if more == [] {
      assert steps + more == steps;
    } else {
      var front, last := more[..|more| - 1], more[|more| - 1];
      RunGrows(steps, front);
      assert (steps + more)[..|steps + more| - 1] == steps + front;
      StepGrows(Run(steps + front), last.now, last.cmd);
    }
  }

  /** An exchange that is answered has put the code's use on record. */
  lemma {:induction false} RefusalIsUse(w: World, now: nat, c: Cmd)
    requires c.ExchangeCode? && c.authCode in w.db.codes && Step(w, now, c).1 == Replied(InvalidGrant)
    ensures var w' := Step(w, now, c).0; |w.log| < |w'.log| && w'.log[|w.log|] == CodeTaken(c.authCode)
  {
  }

  /** BURN. An `invalid_grant` refusal of a stored code burns it for good: however the run goes on, no exchange
      of that code ever yields tokens. */
  lemma {:induction false} RefusalBurnsCode(steps: seq<Timed>, attempt: Timed, more: seq<Timed>,
                                            now: nat, client: Client, uri: string, v: Option<Verifier>)
    requires attempt.cmd.ExchangeCode? && attempt.cmd.authCode in Run(steps).db.codes
    requires Step(Run(steps), attempt.now, attempt.cmd).1 == Replied(InvalidGrant)
    ensures var w := Run(steps + [attempt] + more);
            var t := ExchangeCodeTxn(w.db, w.next, now, client, attempt.cmd.authCode, uri, v);
            t.Ok? ==> t.value == InvalidGrant
  {
    hide Step;
    hide ExchangeCodeTxn;
    var w0, w1, code := Run(steps), Run(steps + [attempt]), attempt.cmd.authCode;
    assert (steps + [attempt])[..|steps|] == steps;
    RefusalIsUse(w0, attempt.now, attempt.cmd);
    RunGrows(steps + [attempt], more);
    var w := Run(steps + [attempt] + more);
    assert w.log[|w0.log|] == CodeTaken(code);
    ConsumedCodeIsDead(w, now, client, code, uri, v);
  }

  lemma {:induction false} CodeOrigin(log: seq<Event>, code: Id) returns (issued: nat, approved: nat)
    requires SoundLog(log) && code in Replay(log).codes
    ensures approved < issued < |log|
    ensures StartsCode(log[issued], code, Replay(log).codes[code])
    ensures log[issued].code.expiresAt == log[issued].at + CODE_TTL
    ensures Records(log[approved], log[issued].code)
    ensures !Replay(log).codes[code].used ==> Unharmed(log, issued + 1, Code(code, log[issued].code.owner))
  {
    FactsHold(log);
    SoundIsOrderly(log);
    var row := Replay(log).codes[code];
    issued :| 0 <= issued < |log| && StartsCode(log[issued], code, row);
    assert SoundHere(log, issued);
    approved :| 0 <= approved < issued && Records(log[..issued][approved], log[issued].code);
    assert log[..issued][approved] == log[approved];
    GrantFate(log, issued, Code(code, row.owner));
  }

  /** REDEEM. A successful exchange means: the code was issued on an approval for this very client, redirect
      URI and PKCE challenge, at most 300 seconds ago, and the user of the client's pool exists and is enabled. */
  lemma {:induction false} RedemptionMatches(w: World, now: nat, client: Client, code: Id, uri: string,
                                             v: Option<Verifier>)
    returns (issued: nat, approved: nat)
    requires Reached(w) && ClientSaved(client) in w.log
    requires ExchangeCodeTxn(w.db, w.next, now, client, code, uri, v).Ok?
    requires ExchangeCodeTxn(w.db, w.next, now, client, code, uri, v).value.Issued?
    ensures approved < issued < |w.log|
    ensures w.log[issued].CodeIssued? && w.log[issued].id == code && now <= w.log[issued].at + 300_000
    ensures Unharmed(w.log, issued + 1, Code(code, w.log[issued].code.owner))
    ensures Records(w.log[approved], w.log[issued].code)
    ensures w.log[approved].approval.client.id == client.id && w.log[approved].approval.redirectUri == uri
    ensures ChallengeMet(w.log[approved].approval.challenge, w.log[approved].approval.challengeMethod, v)
    ensures var k := w.log[issued].code.owner; k.pool == client.pool && k in w.db.users && w.db.users[k].enabled
  {
    ReachedInv(w);
    issued, approved := CodeOrigin(w.log, code);
    PkceExactly(w.db.codes[code], v);
    CodeOwner(w.log, w.db, client, code);
  }

  /** When the exchange transaction yields tokens, by the history of the code. */
  lemma {:induction false} ExchangeFate(w: World, i: nat, now: nat, client: Client, uri: string, v: Option<Verifier>)
    requires Reached(w) && i < |w.log| && w.log[i].CodeIssued? && ClientSaved(client) in w.log
    ensures var e := w.log[i];
            var t := ExchangeCodeTxn(w.db, w.next, now, client, e.id, uri, v);
            t.Ok? && t.value.Issued? <==>
              && e.code.client == client.id && e.code.redirectUri == uri
              && ChallengeMet(e.code.challenge, e.code.challengeMethod, v)
              && now <= e.at + 300_000
              && client.pool in w.db.pools && e.code.owner in w.db.users && w.db.users[e.code.owner].enabled
              && Unharmed(w.log, i + 1, Code(e.id, e.code.owner))
  {
    hide EmailsFree;
    hide SubsKnown;
    hide ProcFits;
    hide Unharmed;
    hide Words;
    hide IssueTokens;
    hide PkceHolds;
    hide Replay;
    ReachedInv(w);
    assert SoundHere(w.log, i);
    var e := w.log[i];
    GrantFate(w.log, i, Code(e.id, e.code.owner));
    CodeKept(w.log, i);
    PkceExactly(e.code, v);
    if e.id in w.db.codes && e.code.client == client.id {
      CodeOwner(w.log, w.db, client, e.id);
    }
  }

  /** EXCHANGE. At the token endpoint an authenticated client gets tokens for an issued code exactly if its code
      flow is on, it is the client the code was approved for, with the approved redirect URI and a verifier that
      answers the challenge, within 300 seconds, while the pool and the enabled user exist, and nothing since the
      issue consumed the code or deleted the user or the pool. */
  lemma {:induction false} CodeFate(w: World, i: nat, now: nat, pid: Id, client: Client, uri: string,
                                    v: Option<Verifier>)
    requires Reached(w) && i < |w.log| && w.log[i].CodeIssued? && pid in w.procs && w.procs[pid] == ClientReady(client)
    ensures var e := w.log[i];
            var s := Step(w, now, ExchangeCode(pid, e.id, uri, v));
            s.1.Replied? && s.1.reply.Issued? <==>
              && CodeFlowOn(client)
              && e.code.client == client.id && e.code.redirectUri == uri
              && ChallengeMet(e.code.challenge, e.code.challengeMethod, v)
              && now <= e.at + 300_000
              && client.pool in w.db.pools && e.code.owner in w.db.users && w.db.users[e.code.owner].enabled
              && Unharmed(w.log, i + 1, Code(e.id, e.code.owner))
  {
    hide Step;
    hide ExchangeCodeTxn;
    hide ChallengeMet;
    ReachedInv(w);
    assert ProcFits(w.log, w.procs[pid]);
    ExchangeStep(w, now, pid, client, w.log[i].id, uri, v);
    ExchangeFate(w, i, now, client, uri, v);
  }

  /** PKCE. Whoever saw the challenge of an S256 authorize request has no use for it: presented as the verifier, it
      yields no tokens, unless it happens to be its own digest. */
  lemma {:induction false} ChallengeIsNoVerifier(w: World, i: nat, now: nat, pid: Id, client: Client, uri: string,
                                                 v: Verifier)
    requires Reached(w) && i < |w.log| && w.log[i].CodeIssued? && pid in w.procs && w.procs[pid] == ClientReady(client)
    requires w.log[i].code.challenge == Some(v.text) && w.log[i].code.challengeMethod == Some(S256) && v.s256 != v.text
    ensures var s := Step(w, now, ExchangeCode(pid, w.log[i].id, uri, Some(v))); s.1.Replied? ==> s.1.reply == InvalidGrant
  {
    hide Step;
    CodeFate(w, i, now, pid, client, uri, Some(v));
    if w.log[i].id in w.db.codes {
      ExchangeConsumesCode(w, now, pid, client, w.log[i].id, uri, Some(v));
    } else {
      UnknownCode(w, now, pid, client, w.log[i].id, uri, Some(v));
    }
  }

  lemma {:induction false} UnknownCode(w: World, now: nat, pid: Id, client: Client, code: Id, uri: string,
                                       v: Option<Verifier>)
    requires code !in w.db.codes && pid in w.procs && w.procs[pid] == ClientReady(client)
    ensures var s := Step(w, now, ExchangeCode(pid, code, uri, v)); s.1.Replied? ==> s.1.reply == InvalidGrant
  {
    ExchangeStep(w, now, pid, client, code, uri, v);
  }

  // ---- Whose login it is ----

  predicate NotDeletedSince(log: seq<Event>, i: nat, k: UserKey) {
    forall j :: i <= j < |log| ==> log[j] != UserDeleted(k) && log[j] != PoolDeleted(k.pool)
  }

  /** The user stored under a key is the one with this sub, if that one was stored before and no deletion came
      between. */
  lemma {:induction false} SubSince(w: World, i: nat, k: UserKey, sub: Id)
    requires Reached(w) && i <= |w.log| && k in w.db.users && SubKnown(w.log[..i], sub)
    requires NotDeletedSince(w.log, i, k)
    ensures w.db.users[k].sub == sub <==> Stored(Replay(w.log[..i]), k, sub)
  {
    hide SoundLog;
    ReachedInv(w);
    SubKept(w.log, i, k);
  }

  /** One more step and what follows, as histories. */
  lemma {:induction false} LogOfRun(steps: seq<Timed>, step: Timed, more: seq<Timed>)
    ensures var w0, w1, w := Run(steps), Run(steps + [step]), Run(steps + [step] + more);
            && Inv(w0) && w0.db == Replay(w0.log) && w0.log <= w1.log <= w.log && Reached(w)
            && w1 == Step(w0, step.now, step.cmd).0
  {
    hide Step;
    hide Run;
    RunInv(steps);
    RunSnoc(steps, step);
    RunGrows(steps, [step]);
    RunGrows(steps + [step], more);
    assert Run(steps + [step] + more) == Run(steps + [step] + more);
  }

  lemma {:induction false} NoDeletion(log: seq<Event>, i: nat, g: Grant)
    requires i < |log| && Unharmed(log, i + 1, g) && Bears(log[i], g)
    ensures NotDeletedSince(log, i, g.owner)
  {
    forall j | i <= j < |log|
      ensures log[j] != UserDeleted(g.owner) && log[j] != PoolDeleted(g.owner.pool)
    {
      if i < j {
        assert !Kills(log[j], g);
        DeletionKills(log[j], g);
      }
    }
  }

  /** LOGIN. The tokens a code yields are those of the user who logged in exactly when that user was still the one
      stored under the name when the code was issued. */
  lemma {:induction false} CodeOfLogin(steps: seq<Timed>, at: nat, pid: Id, a: Approval, u: User, authTime: int,
                                       more: seq<Timed>, now: nat, ready: Id, client: Client, uri: string,
                                       v: Option<Verifier>)
    requires pid in Run(steps).procs && Run(steps).procs[pid] == Completing(a, u, authTime) && !a.implicit
    requires var w := Run(steps + [Timed(at, Complete(pid))] + more);
             ready in w.procs && w.procs[ready] == ClientReady(client)
    requires var w := Run(steps + [Timed(at, Complete(pid))] + more);
             var s := Step(w, now, ExchangeCode(ready, Run(steps).next, uri, v)); s.1.Replied? && s.1.reply.Issued?
    ensures var w0, w := Run(steps), Run(steps + [Timed(at, Complete(pid))] + more);
            var access := Step(w, now, ExchangeCode(ready, w0.next, uri, v)).1.reply.tokens.access;
            access.owner == u.key && (access.sub == u.sub <==> Stored(w0.db, u.key, u.sub))
  {
    hide Run;
    hide Step;
    hide ExchangeCodeTxn;
    hide PkceHolds;
    hide Words;
    var step := Timed(at, Complete(pid));
    var w0, w := Run(steps), Run(steps + [step] + more);
    LogOfRun(steps, step, more);
    assert ProcFits(w0.log, w0.procs[pid]);
    CompleteLogs(w0, at, pid, a, u, authTime);
    var i := |w0.log|;
    assert w.log[i].CodeIssued? && w.log[i].id == w0.next && w.log[i].code.owner == u.key;
    assert w.log[..i] == w0.log;
    ExchangeOwner(w, i, now, ready, client, uri, v);
    SubSince(w, i, u.key, u.sub);
  }

  /** An exchange that succeeds gives tokens of the user stored under the name the code was issued to, which was not
      deleted since. */
  lemma {:induction false} ExchangeOwner(w: World, i: nat, now: nat, ready: Id, client: Client, uri: string,
                                         v: Option<Verifier>)
    requires Reached(w) && i < |w.log| && w.log[i].CodeIssued? && !w.log[i].code.used
    requires ready in w.procs && w.procs[ready] == ClientReady(client)
    requires var s := Step(w, now, ExchangeCode(ready, w.log[i].id, uri, v)); s.1.Replied? && s.1.reply.Issued?
    ensures var k, access := w.log[i].code.owner,
                             Step(w, now, ExchangeCode(ready, w.log[i].id, uri, v)).1.reply.tokens.access;
            && access.Access? && k in w.db.users && access.owner == k && access.sub == w.db.users[k].sub
            && NotDeletedSince(w.log, i, k)
  {
    hide Step;
    hide ExchangeCodeTxn;
    hide PkceHolds;
    hide Replay;
    hide SoundLog;
    hide EmailsFree;
    hide SubsKnown;
    hide ClientsBorn;
    hide OnePoolPerClient;
    hide CodesBorn;
    hide Unharmed;
    hide NotDeletedSince;
    var id := w.log[i].id;
    ReachedInv(w);
    assert ProcFits(w.log, w.procs[ready]);
    ExchangeStep(w, now, ready, client, id, uri, v);
    ExchangeFate(w, i, now, client, uri, v);
    NoDeletion(w.log, i, Code(id, w.log[i].code.owner));
    CodeKept(w.log, i);
    IssuedFor(w.db, w.next, now, client, id, uri, v);
    CodeOwner(w.log, w.db, client, id);
  }

  lemma {:induction false} CompleteLogs(w: World, at: nat, pid: Id, a: Approval, u: User, authTime: int)
    requires pid in w.procs && w.procs[pid] == Completing(a, u, authTime) && !a.implicit && u.key.pool == a.client.pool
    ensures var w' := Step(w, at, Complete(pid)).0;
            |w.log| < |w'.log| && w'.log[|w.log|].CodeIssued? && w'.log[|w.log|].id == w.next
            && w'.log[|w.log|].code.owner == u.key && !w'.log[|w.log|].code.used
  {
    hide ApiTxn;
    hide EntryHop;
  }

  /** Tokens are issued to the user stored under the code's name. */
  lemma {:induction false} IssuedFor(db: Tables, next: Id, now: nat, client: Client, code: Id, uri: string,
                                     v: Option<Verifier>)
    requires var t := ExchangeCodeTxn(db, next, now, client, code, uri, v); t.Ok? && t.value.Issued?
    ensures code in db.codes
    ensures var k := UserKey(client.pool, db.codes[code].owner.name);
            var access := ExchangeCodeTxn(db, next, now, client, code, uri, v).value.tokens.access;
            access.Access? && k in db.users && access.owner == db.users[k].key && access.sub == db.users[k].sub
  {
    hide Words;
    hide PkceHolds;
  }

  // ---- Hosted-UI sessions ----

  /** SESSION. A session resolves to its user exactly if at most 3600 seconds have passed, the user exists, is
      enabled and CONFIRMED now, and no logout of it, global sign-out, disabling, user deletion or pool
      deletion has happened since it was created. Disabling ends it for good: re-enabling revives nothing. */
  lemma {:induction false} SessionFate(w: World, i: nat, p: Id, now: nat)
    requires Reached(w) && i < |w.log| && w.log[i].SessionStarted?
    ensures var e := w.log[i];
            var k := e.session.owner;
            && (SessionUser(w.db, now, p, e.id).Some? <==>
                  && p == k.pool && now <= e.at + 3600_000
                  && k in w.db.users && w.db.users[k].enabled && w.db.users[k].status == CONFIRMED
                  && Unharmed(w.log, i + 1, Session(e.id, k)))
            && (SessionUser(w.db, now, p, e.id).Some? ==>
                  SessionUser(w.db, now, p, e.id).value == (w.db.users[k], e.session.authTime))
  {
    ReachedInv(w);
    assert SoundHere(w.log, i);
    GrantFate(w.log, i, Session(w.log[i].id, w.log[i].session.owner));
    SessionKept(w.log, i);
  }

  /** Likewise a session resolves to the user who logged in exactly when that user was still the one stored under
      the name when the session was created. */
  lemma {:induction false} SessionOfLogin(steps: seq<Timed>, at: nat, pid: Id, a: Approval, u: User,
                                          more: seq<Timed>, now: nat, p: Id)
    requires pid in Run(steps).procs && Run(steps).procs[pid] == SignedIn(a, u)
    requires SessionUser(Run(steps + [Timed(at, StartSession(pid))] + more).db, now, p, Run(steps).next).Some?
    ensures var w0, w := Run(steps), Run(steps + [Timed(at, StartSession(pid))] + more);
            var found := SessionUser(w.db, now, p, w0.next).value.0;
            found.key == u.key && (found.sub == u.sub <==> Stored(w0.db, u.key, u.sub))
  {
    hide Run;
    hide Step;
    var step := Timed(at, StartSession(pid));
    var w0, w := Run(steps), Run(steps + [step] + more);
    LogOfRun(steps, step, more);
    assert ProcFits(w0.log, w0.procs[pid]);
    StartLogs(w0, at, pid, a, u);
    var i := |w0.log|;
    assert w.log[i].SessionStarted? && w.log[i].id == w0.next && w.log[i].session.owner == u.key;
    assert w.log[..i] == w0.log;
    ReachedInv(w);
    SessionFate(w, i, p, now);
    NoDeletion(w.log, i, Session(w0.next, u.key));
    SubSince(w, i, u.key, u.sub);
  }

  lemma {:induction false} StartLogs(w: World, at: nat, pid: Id, a: Approval, u: User)
    requires pid in w.procs && w.procs[pid] == SignedIn(a, u)
    ensures var w' := Step(w, at, StartSession(pid)).0;
            |w.log| < |w'.log| && w'.log[|w.log|].SessionStarted? && w'.log[|w.log|].id == w.next
            && w'.log[|w.log|].session.owner == u.key
  {
    hide ApiTxn;
    hide EntryHop;
  }

  // ---- User deletion ----

  /** DELETION. After a user is deleted, nothing committed for that user before the deletion ever works again,
      even if the same username is created anew. */
  lemma {:induction false} DeletedUserGrantsEnd(w: World, i: nat, k: nat, g: Grant)
    requires Reached(w) && i < k < |w.log| && Bears(w.log[i], g) && w.log[k] == UserDeleted(g.owner)
    ensures !Live(w.db, g)
  {
    ReachedInv(w);
    GrantFate(w.log, i, g);
    assert Kills(w.log[k], g);
  }

  lemma {:induction false} DeletedUserAccessRefused(w: World, i: nat, k: nat, now: nat)
    requires Reached(w) && i < k < |w.log| && w.log[i].Minted? && w.log[i].token.Access?
    requires w.log[k] == UserDeleted(w.log[i].token.owner)
    ensures ValidateAccess(w.db, true, w.log[i].token, now).Err?
  {
    var family := AccessTokenFate(w, i, now);
    assert Kills(w.log[k], FamilyGrant(w.log[family]));
  }

  lemma {:induction false} DeletedUserRefreshRefused(w: World, i: nat, k: nat, client: Client, now: nat)
    requires Reached(w) && i < k < |w.log| && w.log[i].FamilyStarted? && w.log[i].grant.Some?
    requires ClientSaved(client) in w.log && w.log[k] == UserDeleted(w.log[i].owner)
    ensures CognitoService.Refresh(w.db, w.next, now, client, w.log[i].grant.value.token).Err?
  {
    RefreshTokenFate(w, i, client, now);
    assert Kills(w.log[k], Grant.Refresh(w.log[i].grant.value.token, w.log[i].origin, w.log[i].owner, w.log[i].clientId));
  }

  lemma {:induction false} DeletedUserCodeRefused(w: World, i: nat, k: nat, now: nat, client: Client, uri: string,
                                                  v: Option<Verifier>)
    requires Reached(w) && i < k < |w.log| && w.log[i].CodeIssued? && w.log[k] == UserDeleted(w.log[i].code.owner)
    ensures var t := ExchangeCodeTxn(w.db, w.next, now, client, w.log[i].id, uri, v); t.Ok? ==> t.value == InvalidGrant
  {
    ReachedInv(w);
    assert SoundHere(w.log, i);
    CodeKept(w.log, i);
    DeletedUserGrantsEnd(w, i, k, Code(w.log[i].id, w.log[i].code.owner));
  }

  lemma {:induction false} DeletedUserSessionGone(w: World, i: nat, k: nat, p: Id, now: nat)
    requires Reached(w) && i < k < |w.log| && w.log[i].SessionStarted? && w.log[k] == UserDeleted(w.log[i].session.owner)
    ensures SessionUser(w.db, now, p, w.log[i].id) == None
  {
    SessionFate(w, i, p, now);
    assert Kills(w.log[k], Session(w.log[i].id, w.log[i].session.owner));
  }

  lemma {:induction false} DeletedUserChallengeRefused(w: World, i: nat, k: nat, now: nat, client: Client,
                                                       name: ChallengeName)
    requires Reached(w) && i < k < |w.log| && w.log[i].ChallengeIssued? && w.log[k] == UserDeleted(w.log[i].challenge.owner)
    ensures TakeChallenge(w.db, now, client, w.log[i].id, name).Err?
  {
    ReachedInv(w);
    ChallengeKept(w.log, i);
    DeletedUserGrantsEnd(w, i, k, Challenge(w.log[i].id, w.log[i].challenge.owner));
  }

  // ---- Emails ----

  /** EMAIL. In every reachable state of a pool that signs users in by email, no two users share an email,
      letter case aside. */
  lemma {:induction false} EmailsUnique(w: World, k1: UserKey, k2: UserKey)
    requires Reached(w) && k1 in w.db.users && k2 in w.db.users && k1.pool == k2.pool && k1 != k2
    requires k1.pool in w.db.pools && w.db.pools[k1.pool].EmailIsUsername()
    requires EMAIL in w.db.users[k1].attributes && EMAIL in w.db.users[k2].attributes
    ensures Lower(w.db.users[k1].attributes[EMAIL]) != Lower(w.db.users[k2].attributes[EMAIL])
  {
    ReachedInv(w);
    assert EmailFree(w.db, w.db.users[k1]);
  }

  // ---- Scopes ----

  /** Origins are never reused: a family is started once. */
  lemma {:induction false} OriginOnce(log: seq<Event>, i: nat, j: nat)
    requires OrderlyLog(log) && i < |log| && j < |log| && log[i].FamilyStarted? && log[j].FamilyStarted?
    requires log[i].origin == log[j].origin
    ensures i == j
  {
    var n := |log| - 1;
    if i < n && j < n {
      OriginOnce(log[..n], i, j);
    } else if i < n {
      NewOrigin(log[..n], log[n], i);
    } else if j < n {
      NewOrigin(log[..n], log[n], j);
    }
  }

  lemma {:induction false} NewOrigin(log: seq<Event>, e: Event, j: nat)
    requires Orderly(log, e) && e.FamilyStarted? && j < |log| && log[j].FamilyStarted?
    ensures log[j].origin != e.origin
  {
    assert e.origin in NewIds(e) && log[j].origin in NewIds(log[j]);
  }

  /** SCOPES. Every token of a family that came from a code, access or identity token, however many refreshes later,
      carries the authentication time, user and client recorded when the code was issued on an approval, and an access
      token the approved scope list, which was within the client's allowed scopes then. The stored list reads back as
      approved exactly when its entries are words. */
  lemma {:induction false} ScopesKept(w: World, i: nat, family: nat) returns (issued: nat, approved: nat)
    requires Reached(w) && i < |w.log| && family < |w.log| && w.log[i].Minted? && !w.log[i].token.ClientAccess?
    requires w.log[family].FamilyStarted? && w.log[family].origin == w.log[i].token.origin
    requires w.log[family].source.FromCode?
    ensures approved < issued < family < i && w.log[approved].Approved?
    ensures w.log[issued].CodeIssued? && w.log[issued].id == w.log[family].source.code
    ensures var t, a := w.log[i].token, w.log[approved].approval;
            && t.authTime == w.log[issued].code.authTime
            && t.client == a.client.id
            && ApprovalFits(Replay(w.log[..approved]), a)
            && (t.Access? ==> (Words(t.scope) == a.scopes <==> AllClean(a.scopes)))
  {
    hide SoundLog;
    ReachedInv(w);
    var j := FamilyAt(w.log, i);
    OriginOnce(w.log, j, family);
    issued, approved := FamilyApproval(w.log, family);
    ApprovalWas(w.log, approved);
    JoinSurvivesSplit(w.log[approved].approval.scopes);
  }

  lemma {:induction false} ApprovalWas(log: seq<Event>, i: nat)
    requires SoundLog(log) && i < |log| && log[i].Approved?
    ensures ApprovalFits(Replay(log[..i]), log[i].approval)
  {
    assert SoundHere(log, i);
  }

  lemma {:induction false} FamilyApproval(log: seq<Event>, family: nat) returns (issued: nat, approved: nat)
    requires SoundLog(log) && family < |log| && log[family].FamilyStarted? && log[family].source.FromCode?
    ensures approved < issued < family && log[issued].CodeIssued? && log[issued].id == log[family].source.code
    ensures Records(log[approved], log[issued].code)
    ensures log[family].authTime == log[issued].code.authTime && log[family].clientId == log[issued].code.client
    ensures Words(log[family].scope) == Words(log[issued].code.scope)
  {
    var code := log[family].source.code;
    RedeemHasUse(log, family, code);
    SoundPrefix(log, family - 1);
    issued, approved := CodeOrigin(log[..family - 1], code);
    RedeemRow(log, family);
  }

  lemma {:induction false} RedeemRow(log: seq<Event>, j: nat)
    requires SoundLog(log) && 0 < j < |log| && log[j].FamilyStarted? && log[j].source.FromCode?
    requires log[j].source.code in Replay(log[..j - 1]).codes
    ensures var row := Replay(log[..j - 1]).codes[log[j].source.code];
            log[j].authTime == row.authTime && log[j].clientId == row.client && Words(log[j].scope) == Words(row.scope)
  {
    assert SoundHere(log, j);
    assert log[..j][..|log[..j]| - 1] == log[..j - 1];
  }

  // ---- Challenges, confirmations, rollback ----

  /** CHALLENGE. Each challenge session completes at most once. */
  lemma {:induction false} ChallengeOnce(w: World, i: nat, j: nat)
    requires Reached(w) && i < j < |w.log| && w.log[i].ChallengeTaken?
    ensures w.log[j] != w.log[i]
  {
    ReachedSound(w);
    assert SoundHere(w.log, j);
    TakenChallengeGone(w.log, i, j);
  }

  lemma {:induction false} TakenChallengeGone(log: seq<Event>, i: nat, j: nat)
    requires SoundLog(log) && i < j < |log| && log[i].ChallengeTaken?
    ensures log[i].id !in Replay(log[..j]).challenges
  {
    var id := log[i].id;
    assert SoundHere(log, i);
    ChallengeBorn(log[..i], id);
    var b :| 0 <= b < i && StartsChallenge(log[..i][b], id);
    assert log[..i][b] == log[b] && log[..j][b] == log[b] && log[..j][i] == log[i];
    SoundPrefix(log, j);
    SoundIsOrderly(log[..j]);
    var g := Challenge(id, log[b].challenge.owner);
    GrantFate(log[..j], b, g);
    assert Kills(log[..j][i], g);
    ChallengeKept(log[..j], b);
  }

  /** A challenge session can be answered exactly if its own client presents it under its own name, unexpired, the
      user exists, and nothing since its issue consumed it or deleted the user or the pool. */
  lemma {:induction false} ChallengeFate(w: World, i: nat, now: nat, client: Client, name: ChallengeName)
    requires Reached(w) && i < |w.log| && w.log[i].ChallengeIssued?
    ensures var e := w.log[i];
            var row := e.challenge;
            var t := TakeChallenge(w.db, now, client, e.id, name);
            && (t.Ok? <==>
                  && row.client == client.id && now <= row.expiresAt && row.name == name
                  && UserKey(client.pool, row.owner.name) in w.db.users
                  && Unharmed(w.log, i + 1, Challenge(e.id, row.owner)))
            && (t.Ok? ==> t.value == w.db.users[UserKey(client.pool, row.owner.name)] && t.events == [ChallengeTaken(e.id)])
  {
    ReachedInv(w);
    GrantFate(w.log, i, Challenge(w.log[i].id, w.log[i].challenge.owner));
    ChallengeKept(w.log, i);
  }

  predicate SetsCode(e: Event, v: VerifyKey) {
    e.VerifySet? && e.key == v
  }

  lemma {:induction false} UsedCodeGone(log: seq<Event>, i: nat)
    requires i < |log| && log[i].VerifyUsed?
    requires forall k :: i < k < |log| ==> !SetsCode(log[k], log[i].key)
    ensures log[i].key !in Replay(log).verify
  {
    var front, e := log[..|log| - 1], log[|log| - 1];
    if i < |front| {
      assert forall k :: i < k < |front| ==> front[k] == log[k];
      UsedCodeGone(front, i);
      assert !SetsCode(log[|log| - 1], log[i].key);
    }
  }

  /** The event makes a verification code unusable. */
  predicate EndsCode(e: Event, v: VerifyKey) {
    e == VerifyUsed(v) || e == UserDeleted(v.owner) || e == PoolDeleted(v.owner.pool)
  }

  lemma {:induction false} CodeStays(verify: map<VerifyKey, VerifyRow>, e: Event, v: VerifyKey)
    requires !SetsCode(e, v)
    ensures v in VerifyAfter(verify, e) <==> v in verify && !EndsCode(e, v)
    ensures v in VerifyAfter(verify, e) ==> VerifyAfter(verify, e)[v] == verify[v]
  {
  }

  lemma {:induction false} ReplayVerify(front: seq<Event>, e: Event)
    ensures Replay(front + [e]).verify == VerifyAfter(Replay(front).verify, e)
  {
    hide VerifyAfter;
    ReplayStep(front, e);
  }

  /** The row of a verification code, while no newer code was set. */
  lemma {:induction false} LatestCode(log: seq<Event>, i: nat)
    requires i < |log| && log[i].VerifySet? && forall k :: i < k < |log| ==> !SetsCode(log[k], log[i].key)
    ensures var db := Replay(log);
            && (log[i].key in db.verify <==> forall k :: i < k < |log| ==> !EndsCode(log[k], log[i].key))
            && (log[i].key in db.verify ==> db.verify[log[i].key] == log[i].row)
  {
    hide Replay;
    var front, e := log[..|log| - 1], log[|log| - 1];
    ReplayVerify(front, e);
    assert front + [e] == log;
    if i < |front| {
      assert forall k :: i < k < |front| ==> front[k] == log[k];
      LatestCode(front, i);
      assert !SetsCode(log[|log| - 1], log[i].key);
      CodeStays(Replay(front).verify, e, log[i].key);
    }
  }

  /** VERIFY. The latest code set for a user is accepted exactly if it is presented, surrounding spaces aside,
      before it expires, and it was not used and neither the user nor the pool deleted since it was set. */
  lemma {:induction false} VerificationFate(w: World, i: nat, now: nat, u: User, code: string)
    requires Reached(w) && i < |w.log| && w.log[i].VerifySet? && w.log[i].key.owner == u.key
    requires forall k :: i < k < |w.log| ==> !SetsCode(w.log[k], w.log[i].key)
    ensures var e := w.log[i];
            CheckCode(w.db, now, u, e.key.kind, code).Ok? <==>
              && Trim(code) == e.row.code && now <= e.row.expiresAt
              && forall k :: i < k < |w.log| ==> !EndsCode(w.log[k], e.key)
  {
    ReachedInv(w);
    LatestCode(w.log, i);
  }

  /** CONFIRM. Between two successful confirmations of one kind for a user a new code is set. */
  lemma {:induction false} ConfirmationNeedsNewCode(w: World, i: nat, j: nat)
    requires Reached(w) && i < j < |w.log| && w.log[i].VerifyUsed? && w.log[j] == w.log[i]
    ensures exists k :: i < k < j && SetsCode(w.log[k], w.log[i].key)
  {
    ReachedSound(w);
    CodeReset(w.log, i, j);
  }

  lemma {:induction false} CodeReset(log: seq<Event>, i: nat, j: nat)
    requires SoundLog(log) && i < j < |log| && log[i].VerifyUsed? && log[j] == log[i]
    ensures exists k :: i < k < j && SetsCode(log[k], log[i].key)
  {
    assert SoundHere(log, j);
    if forall k :: i < k < j ==> !SetsCode(log[..j][k], log[i].key) {
      UsedCodeGone(log[..j], i);
    }
    var k :| i < k < j && SetsCode(log[..j][k], log[i].key);
    assert log[..j][k] == log[k];
  }

  /** ROLLBACK. A step that fails, even after it has consumed a challenge or a code, leaves tables and history as
      they were; a failed call leaves everything, a failed step of a request in progress only drops the request. */
  lemma {:induction false} FailureLeavesEverything(w: World, now: nat, c: Cmd)
    requires Step(w, now, c).1.Failed?
    ensures var w' := Step(w, now, c).0;
            && w'.db == w.db && w'.log == w.log && w'.next == w.next
            && (IsApi(c) ==> w' == w)
            && (!IsApi(c) && !c.Prepare? && !c.ClientAuth? ==> w'.procs == w.procs - {c.proc})
  {
  }

  /** Failed API calls leave no trace: a run with one more of them, anywhere, ends like the run without it. */
  lemma {:induction false} FailureVanishes(steps: seq<Timed>, failed: Timed, more: seq<Timed>)
    requires IsApi(failed.cmd) && Step(Run(steps), failed.now, failed.cmd).1.Failed?
    ensures Run(steps + [failed] + more) == Run(steps + more)
  {
    hide Step;
    if more == [] {
      assert steps + [failed] + more == steps + [failed] && steps + more == steps;
      assert (steps + [failed])[..|steps|] == steps;
      FailureLeavesEverything(Run(steps), failed.now, failed.cmd);
    } else {
      var front, last := more[..|more| - 1], more[|more| - 1];
      FailureVanishes(steps, failed, front);
      assert steps + [failed] + more == (steps + [failed] + front) + [last];
      assert steps + more == (steps + front) + [last];
      RunSnoc(steps + [failed] + front, last);
      RunSnoc(steps + front, last);
    }
  }

  lemma {:induction false} RunSnoc(steps: seq<Timed>, last: Timed)
    ensures Run(steps + [last]) == Step(Run(steps), last.now, last.cmd).0
  {
    hide Step;
    assert (steps + [last])[..|steps|] == steps;
  }

  /** The same request with another password, one that the pool's policy accepts. */
  function Retry(c: Cmd, pw: string): Cmd
    requires c.RespondToChallenge? || c.ConfirmForgotPassword?
  {
    match c
    case RespondToChallenge(p, client, name, session, _, _, attrs) =>
      RespondToChallenge(p, client, name, session, pw, true, attrs)
    case ConfirmForgotPassword(client, name, code, _, _) => ConfirmForgotPassword(client, name, code, pw, true)
  }

  /** No attribute is the sub, and none is an email that another user of an email-username pool has. */
  predicate Assignable(db: Tables, settings: Pool, k: UserKey, attrs: seq<(string, string)>) {
    forall i :: 0 <= i < |attrs| ==>
      && attrs[i].0 != SUB
      && (attrs[i].0 == EMAIL && settings.EmailIsUsername() ==> !EmailTaken(db, k.pool, attrs[i].1, Some(k.name)))
  }

  /** ATTRIBUTES. An update is refused exactly when one of its attributes is. */
  lemma {:induction false} AssignAllExactly(db: Tables, settings: Pool, u: User, attrs: seq<(string, string)>,
                                            keepEmail: bool, keepPhone: bool)
    ensures AssignAll(db, settings, u, attrs, keepEmail, keepPhone).Ok? <==> Assignable(db, settings, u.key, attrs)
    decreases |attrs|
  {
    hide EmailTaken;
    if attrs != [] {
      var u' := SetAttribute(u, attrs[0].0, attrs[0].1, keepEmail, keepPhone);
      AssignAllExactly(db, settings, u', attrs[1..], keepEmail, keepPhone);
      assert forall i :: 1 <= i < |attrs| ==> attrs[i] == attrs[1..][i - 1];
    }
  }

  /** The user's own row does not matter to whether others hold its email. */
  lemma {:induction false} OthersEmails(db: Tables, db': Tables, settings: Pool, u: User, attrs: seq<(string, string)>)
    requires db'.users == db.users[u.key := u]
    ensures Assignable(db', settings, u.key, attrs) <==> Assignable(db, settings, u.key, attrs)
  {
    forall email
      ensures EmailTaken(db', u.key.pool, email, Some(u.key.name)) <==> EmailTaken(db, u.key.pool, email, Some(u.key.name))
    {
      hide Lower;
    }
  }

  /** RETRY. A challenge response or password reset refused only for its password was refused without consuming the
      challenge session or the code: repeated with a password that conforms, the reset succeeds, and the response
      succeeds exactly when its attributes can be assigned. */
  lemma {:induction false} RefusedPasswordRetried(w: World, now: nat, c: Cmd, pw: string)
    requires Reached(w) && (c.RespondToChallenge? || c.ConfirmForgotPassword?)
    requires Step(w, now, c).1 == Failed(InvalidPassword)
    ensures var again := Step(Step(w, now, c).0, now, Retry(c, pw)).1;
            if c.ConfirmForgotPassword? then again.Replied?
            else
              && c.client in w.db.clients && c.session in w.db.challenges
              && var p := w.db.clients[c.client].pool;
              && p in w.db.pools
              && (again.Replied? <==>
                    Assignable(w.db, w.db.pools[p], UserKey(p, w.db.challenges[c.session].owner.name), c.attrs))
  {
    hide RespondTxn;
    hide ConfirmForgotTxn;
    hide Step;
    PasswordStep(w, now, c);
    PasswordStep(w, now, Retry(c, pw));
    FailureLeavesEverything(w, now, c);
    if c.RespondToChallenge? {
      ReachedInv(w);
      RespondRetried(w.db, w.next, now, c, pw);
    } else {
      ForgotRetried(w.db, now, c, pw);
    }
  }

  lemma {:induction false} PasswordStep(w: World, now: nat, c: Cmd)
    requires c.RespondToChallenge? || c.ConfirmForgotPassword?
    ensures IsApi(c)
    ensures Step(w, now, c).1 == AnswerTo(if c.RespondToChallenge? then RespondTxn(w.db, w.next, now, c)
                                          else ConfirmForgotTxn(w.db, now, c))
  {
    hide RespondTxn;
    hide ConfirmForgotTxn;
  }

  lemma {:induction false} RespondRetried(db: Tables, next: Id, now: nat, c: Cmd, pw: string)
    requires UsersFit(db) && c.RespondToChallenge? && RespondTxn(db, next, now, c) == Err(InvalidPassword)
    ensures c.client in db.clients && c.session in db.challenges && db.clients[c.client].pool in db.pools
    ensures var p := db.clients[c.client].pool;
            RespondTxn(db, next, now, Retry(c, pw)).Ok? <==>
              Assignable(db, db.pools[p], UserKey(p, db.challenges[c.session].owner.name), c.attrs)
  {
    hide EmailTaken;
    hide IssueTokens;
    var client := db.clients[c.client];
    var settings := db.pools[client.pool];
    var s := AnswerTxn(db, now, client, c.challenge, c.session, pw, true);
    var db' := EffectAll(db, s.events);
    AnswerUsers(db, now, client, c.challenge, c.session, pw);
    AssignAllExactly(db', settings, s.value, c.attrs, Names(c.attrs, EMAIL_VERIFIED), Names(c.attrs, PHONE_VERIFIED));
    OthersEmails(db, db', settings, s.value, c.attrs);
  }

  lemma {:induction false} AnswerUsers(db: Tables, now: nat, client: Client, name: ChallengeName, session: Id,
                                       pw: string)
    requires AnswerTxn(db, now, client, name, session, pw, true).Ok?
    ensures var s := AnswerTxn(db, now, client, name, session, pw, true);
            EffectAll(db, s.events).users == db.users[s.value.key := s.value]
  {
    var s := AnswerTxn(db, now, client, name, session, pw, true);
    EffectTwo(db, ChallengeTaken(session), UserSaved(s.value));
  }

  lemma {:induction false} ForgotRetried(db: Tables, now: nat, c: Cmd, pw: string)
    requires c.ConfirmForgotPassword? && ConfirmForgotTxn(db, now, c) == Err(InvalidPassword)
    ensures ConfirmForgotTxn(db, now, Retry(c, pw)).Ok?
  {
  }

  // ---- Authorize requests and passwords ----

  /** The redirect URI and scopes an authorize request comes to, with the client's defaults. */
  function RequestedUri(client: Client, q: Query): Option<string> {
    if q.redirectUri.Some? then q.redirectUri else client.defaultRedirect
  }

  function RequestedScopes(client: Client, q: Query): seq<string> {
    if q.scope.Some? then Words(q.scope.value) else client.scopes
  }

  /** A known method, if any, and never without a challenge. */
  predicate SoundPkce(q: Query) {
    q.challengeMethod.NoMethod? || (q.challengeMethod.KnownMethod? && q.challenge.Some?)
  }

  /** The client and its pool are there, the redirect URI is registered, the flow enabled, the scopes some of the
      client's, and the PKCE parameters sound. */
  predicate Approvable(db: Tables, c: Id, q: Query) {
    && c in db.clients && db.clients[c].pool in db.pools
    && var client := db.clients[c];
    && RequestedUri(client, q).Some? && RequestedUri(client, q).value in client.callbacks
    && !q.responseType.OtherResponse? && client.oauthEnabled
    && (if q.responseType.TokenResponse? then ImplicitFlow else CodeFlow) in client.oauthFlows
    && RequestedScopes(client, q) != [] && (forall scope :: scope in RequestedScopes(client, q) ==> scope in client.scopes)
    && SoundPkce(q)
  }

  /** The approval records the request: a challenge without a method counts as plain. */
  predicate AsAsked(a: Approval, client: Client, q: Query) {
    && a.client == client && Some(a.redirectUri) == RequestedUri(client, q)
    && a.scopes == RequestedScopes(client, q) && a.implicit == q.responseType.TokenResponse?
    && a.challenge == q.challenge && a.nonce == q.nonce
    && (a.challengeMethod == Some(S256) <==> q.challengeMethod == KnownMethod(S256))
    && (a.challenge.Some? <==> a.challengeMethod.Some?)
  }

  /** AUTHORIZE. A request is approved exactly when its client and pool exist, its redirect URI is registered, its
      flow is enabled, its scopes are some of the client's and its PKCE parameters are sound. What is approved is what
      was asked for, and it has a PKCE method exactly when it has a challenge. */
  lemma {:induction false} ApprovedExactly(db: Tables, c: Id, q: Query)
    ensures var t := PrepareTxn(db, c, q);
            && (t.Ok? <==> Approvable(db, c, q))
            && (t.Ok? ==> AsAsked(t.value, db.clients[c], q) && t.events == [Approved(t.value)])
  {
    hide Words;
    if c in db.clients {
      AllInIs(RequestedScopes(db.clients[c], q), db.clients[c].scopes);
    }
  }

  lemma {:induction false} AllInIs(xs: seq<string>, ys: seq<string>)
    ensures AllIn(xs, ys) <==> forall x :: x in xs ==> x in ys
  {
  }

  /** PASSWORD. Sign-in succeeds exactly for a stored, enabled, confirmed user with this password; a user who must
      change it first gets the challenge; and a client that hides users tells a missing one from a wrong
      password in no way. */
  lemma {:induction false} AuthenticatedExactly(db: Tables, client: Client, k: UserKey, password: string)
    ensures var t := Authenticate(db, client, k, password);
            var right := k in db.users && db.users[k].enabled && db.users[k].password == Some(password);
            && (t.Ok? && t.value.SignedInAs? <==> right && db.users[k].status == CONFIRMED)
            && (t.Ok? && t.value.MustChangePassword? <==> right && db.users[k].status == FORCE_CHANGE_PASSWORD)
            && (t.Ok? ==> t.value.user == db.users[k] && t.events == [])
            && (t == Err(BadCredentials) <==>
                  if k in db.users then db.users[k].enabled && db.users[k].password != Some(password) else client.hideUsers)
            && (t == Err(UserNotFound) <==> k !in db.users && !client.hideUsers)
  {
  }
}
