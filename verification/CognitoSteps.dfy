/** Each handler's transaction keeps the history sound. */
module CognitoSteps {
  import opened Options
  import opened Text
  import opened CognitoTables
  import opened CognitoGrants
  import opened CognitoService
  import opened CognitoLog
  import opened CognitoServer
  import opened CognitoGrowth

  ghost predicate Ready(log: seq<Event>, next: Id, db: Tables) {
    Good(log, next) && db == Replay(log)
  }

  /** The transaction, if it commits, grows the history soundly. */
  ghost predicate Keeps<T(!new)>(log: seq<Event>, next: Id, t: Txn<T>) {
    t.Ok? ==> Grows(log, next, t.events)
  }

  lemma {:induction false} ClientInLog(log: seq<Event>, db: Tables, c: Id)
    requires db == Replay(log) && Facts(log) && c in db.clients
    ensures ClientSaved(db.clients[c]) in log && db.clients[c].id == c
    ensures KnownClient(log, c, db.clients[c].pool)
  {
    var j :| 0 <= j < |log| && log[j] == ClientSaved(db.clients[c]);
    assert IsClient(log[j], c, db.clients[c].pool);
  }

  lemma {:induction false} ApprovedClient(log: seq<Event>, a: Approval)
    requires SoundLog(log) && Approved(a) in log
    ensures ClientSaved(a.client) in log
  {
    var j: nat :| j < |log| && log[j] == Approved(a);
    assert SoundHere(log, j);
    SoundPrefix(log, j);
    FactsHold(log[..j]);
    ClientInLog(log[..j], Replay(log[..j]), a.client.id);
  }

  lemma {:induction false} SavedIsKnown(log: seq<Event>, c: Client)
    requires ClientSaved(c) in log
    ensures KnownClient(log, c.id, c.pool)
  {
    var j :| 0 <= j < |log| && log[j] == ClientSaved(c);
    assert IsClient(log[j], c.id, c.pool);
  }

  /** Clients never move between pools. */
  lemma {:induction false} PoolOfClient(log: seq<Event>, c: Client, p: Id)
    requires OnePoolPerClient(log) && ClientSaved(c) in log && KnownClient(log, c.id, p)
    ensures c.pool == p
  {
    var i :| 0 <= i < |log| && log[i] == ClientSaved(c);
    var j :| 0 <= j < |log| && IsClient(log[j], c.id, p);
    assert SamePool(log[i], log[j]);
  }

  lemma {:induction false} KnownLater(log: seq<Event>, es: seq<Event>, c: Id, p: Id)
    requires KnownClient(log, c, p)
    ensures KnownClient(log + es, c, p)
  {
    var j :| 0 <= j < |log| && IsClient(log[j], c, p);
    assert IsClient((log + es)[j], c, p);
  }

  // ---- One-event transactions ----

  lemma {:induction false} PoolsSound(log: seq<Event>, next: Id, db: Tables, p: Id, settings: Pool)
    requires Ready(log, next, db)
    ensures Keeps(log, next, CreatePoolTxn(db, next, settings))
    ensures Keeps(log, next, UpdatePoolTxn(db, p, settings))
    ensures Keeps(log, next, CognitoService.DeletePool(db, p))
  {
    FactsHold(log);
    if next !in db.pools {
      GrowOne(log, next, PoolSaved(next, settings));
    }
    if p in db.pools {
      GrowOne(log, next, PoolSaved(p, settings.(usernameAttributes := db.pools[p].usernameAttributes)));
      GrowOne(log, next, PoolDeleted(p));
    }
  }

  lemma {:induction false} CreateClientSound(log: seq<Event>, next: Id, db: Tables, settings: Client)
    requires Ready(log, next, db)
    ensures Keeps(log, next, CreateClientTxn(db, next, settings))
  {
    var created := settings.(id := next);
    forall i | 0 <= i < |log| ensures SamePool(log[i], ClientSaved(created)) {
      assert BoundedEvent(log[i], next);
    }
    GrowOne(log, next, ClientSaved(created));
  }

  lemma {:induction false} UpdateClientSound(log: seq<Event>, next: Id, db: Tables, p: Id, settings: Client)
    requires Ready(log, next, db)
    ensures Keeps(log, next, UpdateClientTxn(db, p, settings))
  {
    hide Replay;
    FactsHold(log);
    if settings.id in db.clients {
      var saved := settings.(pool := db.clients[settings.id].pool, secret := db.clients[settings.id].secret);
      ClientInLog(log, db, settings.id);
      var j :| 0 <= j < |log| && log[j] == ClientSaved(db.clients[settings.id]);
      assert BoundedEvent(log[j], next);
      forall i | 0 <= i < |log| ensures SamePool(log[i], ClientSaved(saved)) {
        assert SamePool(log[i], log[j]);
      }
      GrowOne(log, next, ClientSaved(saved));
    }
  }

  lemma {:induction false} SaveSound(log: seq<Event>, next: Id, db: Tables, u: User)
    requires Ready(log, next, db) && Stored(db, u.key, u.sub)
    requires EMAIL in u.attributes ==> db.users[u.key].Attribute(EMAIL) == Some(u.attributes[EMAIL])
    ensures Grows(log, next, [UserSaved(u)])
  {
    FactsHold(log);
    SameEmail(db, u);
    SubsBounded(log, next);
    GrowOne(log, next, UserSaved(u));
  }

  lemma {:induction false} CreateUserSound(log: seq<Event>, next: Id, db: Tables, p: Id, req: NewUser, taken: bool)
    requires Ready(log, next, db) && p in db.pools
    ensures Keeps(log, next, CreateUser(db, next, p, db.pools[p], req, taken))
  {
    FactsHold(log);
    var t := CreateUser(db, next, p, db.pools[p], req, taken);
    if t.Ok? {
      assert EmailFree(db, t.value);
      SubsBounded(log, next);
      GrowOne(log, next, UserSaved(t.value));
    }
  }

  /** Attribute updates keep the key and never take an email another user holds. */
  lemma {:induction false} AssignAllEmail(db: Tables, settings: Pool, u: User, attrs: seq<(string, string)>,
                                          keepEmail: bool, keepPhone: bool)
    requires u.key.pool in db.pools && settings == db.pools[u.key.pool] && EmailFree(db, u)
    ensures var t := AssignAll(db, settings, u, attrs, keepEmail, keepPhone);
            t.Ok? ==> t.value.key == u.key && t.value.sub == u.sub && EmailFree(db, t.value)
    decreases |attrs|
  {
    if attrs != [] {
      var (k, v) := attrs[0];
      var u' := SetAttribute(u, k, v, keepEmail, keepPhone);
      assert k != EMAIL ==> (EMAIL in u'.attributes <==> EMAIL in u.attributes);
      if k != SUB && !(k == EMAIL && settings.EmailIsUsername() && EmailTaken(db, u.key.pool, v, Some(u.key.name))) {
        AssignAllEmail(db, settings, u', attrs[1..], keepEmail, keepPhone);
      }
    }
  }

  lemma {:induction false} SavedIsStored(log: seq<Event>, u: User)
    ensures Stored(Replay(log + [UserSaved(u)]), u.key, u.sub)
  {
    ReplayStep(log, UserSaved(u));
  }

  lemma {:induction false} UpdateSound(log: seq<Event>, next: Id, pre: seq<Event>, db: Tables, u: User,
                                       attrs: seq<(string, string)>)
    requires Good(log, next) && Grows(log, next, pre) && Facts(log + pre) && db == Replay(log + pre)
    requires u.key in db.users && db.users[u.key] == u
    ensures var t := UpdateAttributes(db, db.pools[u.key.pool], u, attrs);
            t.Ok? ==> Grows(log, next, pre + t.events) && t.value.key == u.key
                      && Stored(Replay(log + (pre + t.events)), u.key, t.value.sub)
  {
    hide Replay;
    hide SoundLog;
    hide Effect;
    assert EmailFree(db, db.users[u.key]);
    var settings := db.pools[u.key.pool];
    AssignAllEmail(db, settings, u, attrs, Names(attrs, EMAIL_VERIFIED), Names(attrs, PHONE_VERIFIED));
    var t := UpdateAttributes(db, settings, u, attrs);
    if t.Ok? {
      SubsBounded(log + pre, next + STRIDE);
      Grow(log, next, pre, UserSaved(t.value));
      SavedIsStored(log + pre, t.value);
      assert log + pre + [UserSaved(t.value)] == log + (pre + t.events);
    }
  }

  // ---- Users and verification codes ----

  lemma {:induction false} SaveThenSet(log: seq<Event>, next: Id, u: User, v: VerifyKey, row: VerifyRow)
    requires Good(log, next) && Grows(log, next, [UserSaved(u)])
    ensures Grows(log, next, [UserSaved(u)] + [VerifySet(v, row)])
  {
    Grow(log, next, [UserSaved(u)], VerifySet(v, row));
  }

  lemma {:induction false} SignUpSound(log: seq<Event>, next: Id, db: Tables, now: nat, c: Cmd)
    requires Ready(log, next, db) && c.SignUp?
    ensures Keeps(log, next, SignUpTxn(db, next, now, c))
  {
    FactsHold(log);
    var t := SignUpTxn(db, next, now, c);
    if t.Ok? {
      var p := db.clients[c.client].pool;
      var req := NewUser(c.login, c.attrs, Some(c.password), UNCONFIRMED);
      CreateUserSound(log, next, db, p, req, c.taken);
      var u := CreateUser(db, next, p, db.pools[p], req, c.taken).value;
      SaveThenSet(log, next, u, VerifyKey(u.key, SignUpCode), VerifyRow(c.code, now + VERIFY_TTL));
    }
  }

  lemma {:induction false} UserAdminSound(log: seq<Event>, next: Id, db: Tables, now: nat, k: UserKey,
                                          enable: bool, names: seq<string>)
    requires Ready(log, next, db)
    ensures Keeps(log, next, SetEnabledTxn(db, k, enable))
    ensures Keeps(log, next, DeleteUserTxn(db, k))
    ensures Keeps(log, next, SignOutTxn(db, now, k))
    ensures Keeps(log, next, DeleteAttributesTxn(db, k, names))
    ensures Keeps(log, next, ConfirmTxn(db, k))
  {
    FactsHold(log);
    if k in db.users {
      var u := db.users[k];
      SaveSound(log, next, db, u.(enabled := true));
      GrowOne(log, next, UserDisabled(k));
      GrowOne(log, next, UserDeleted(k));
      GrowOne(log, next, SignedOut(k, now));
      SaveSound(log, next, db, u.(attributes := u.attributes - set n | n in names));
      var t := ConfirmUser(db.pools[k.pool], u);
      if t.Ok? {
        SaveSound(log, next, db, t.value);
      }
    }
  }

  lemma {:induction false} PasswordSound(log: seq<Event>, next: Id, db: Tables, u: User, pw: string,
                                         permanent: bool, conforms: bool)
    requires Ready(log, next, db) && u.key in db.users && db.users[u.key] == u
    ensures Keeps(log, next, SetPassword(u, pw, permanent, conforms))
  {
    FactsHold(log);
    var t := SetPassword(u, pw, permanent, conforms);
    if t.Ok? {
      SaveSound(log, next, db, t.value);
    }
  }

  lemma {:induction false} ResetSound(log: seq<Event>, next: Id, db: Tables, now: nat, k: UserKey, code: string)
    requires Ready(log, next, db)
    ensures Keeps(log, next, ResetPasswordTxn(db, now, k, code))
  {
    FactsHold(log);
    if k in db.users {
      var u := db.users[k].(status := if db.users[k].status == UNCONFIRMED then UNCONFIRMED else RESET_REQUIRED);
      SaveSound(log, next, db, u);
      SaveThenSet(log, next, u, VerifyKey(u.key, ResetCode), VerifyRow(code, now + VERIFY_TTL));
    }
  }

  lemma {:induction false} SendSound(log: seq<Event>, next: Id, db: Tables, now: nat, c: Cmd)
    requires Ready(log, next, db) && c.SendCode?
    ensures Keeps(log, next, SendCodeTxn(db, now, c))
  {
    FactsHold(log);
    GrowNone(log, next);
    if c.client in db.clients {
      var k := UserKey(db.clients[c.client].pool, c.name);
      if k in db.users {
        GrowOne(log, next, VerifySet(VerifyKey(db.users[k].key, c.kind), VerifyRow(c.code, now + VERIFY_TTL)));
      }
    }
  }

  /** Saving a stored user with the same email, after other events of the transaction. */
  lemma {:induction false} SaveNext(log: seq<Event>, next: Id, pre: seq<Event>, db: Tables, u: User)
    requires Good(log, next) && Grows(log, next, pre) && Facts(log + pre) && db == Replay(log + pre)
    requires Stored(db, u.key, u.sub)
    requires EMAIL in u.attributes ==> db.users[u.key].Attribute(EMAIL) == Some(u.attributes[EMAIL])
    ensures Grows(log, next, pre + [UserSaved(u)])
    ensures Facts(log + (pre + [UserSaved(u)]))
    ensures var db' := Replay(log + (pre + [UserSaved(u)])); db'.users == db.users[u.key := u] && db'.pools == db.pools
  {
    hide SoundLog;
    hide Replay;
    SameEmail(db, u);
    SubsBounded(log + pre, next + STRIDE);
    Grow(log, next, pre, UserSaved(u));
    ReplayStep(log + pre, UserSaved(u));
    FactsStep(log + pre, UserSaved(u));
    assert log + pre + [UserSaved(u)] == log + (pre + [UserSaved(u)]);
  }

  /** A consumed code or challenge followed by saving the same user with the same email. */
  lemma {:induction false} TakeThenSave(log: seq<Event>, next: Id, db: Tables, e: Event, u: User)
    requires Ready(log, next, db) && Stored(db, u.key, u.sub)
    requires (e.VerifyUsed? && e.key in db.verify) || (e.ChallengeTaken? && e.id in db.challenges)
    requires EMAIL in u.attributes ==> db.users[u.key].Attribute(EMAIL) == Some(u.attributes[EMAIL])
    ensures Grows(log, next, [e] + [UserSaved(u)])
    ensures Facts(log + ([e] + [UserSaved(u)]))
    ensures var db' := Replay(log + ([e] + [UserSaved(u)])); db'.users == db.users[u.key := u] && db'.pools == db.pools
  {
    hide SoundLog;
    hide Replay;
    FactsHold(log);
    GrowOne(log, next, e);
    ReplayStep(log, e);
    FactsStep(log, e);
    SaveNext(log, next, [e], Effect(db, e), u);
  }

  lemma {:induction false} ConfirmSignUpSound(log: seq<Event>, next: Id, db: Tables, now: nat, c: Cmd)
    requires Ready(log, next, db) && c.ConfirmSignUp?
    ensures Keeps(log, next, ConfirmSignUpTxn(db, now, c))
  {
    FactsHold(log);
    var t := ConfirmSignUpTxn(db, now, c);
    if t.Ok? {
      var u := WithClientUser(db, c.client, c.name).value;
      var s := ConfirmUser(db.pools[db.clients[c.client].pool], u);
      TakeThenSave(log, next, db, VerifyUsed(VerifyKey(u.key, SignUpCode)), s.value);
    }
  }

  lemma {:induction false} MarkVerified(log: seq<Event>, next: Id, pre: seq<Event>, u: User, v: User)
    requires Good(log, next) && Grows(log, next, pre) && Facts(log + pre)
    requires u.key in Replay(log + pre).users && Replay(log + pre).users[u.key] == u
    requires v == u.(attributes := u.attributes[EMAIL_VERIFIED := "true"])
    ensures Grows(log, next, pre + [UserSaved(v)])
  {
    SaveNext(log, next, pre, Replay(log + pre), v);
  }

  lemma {:induction false} ConfirmForgotSound(log: seq<Event>, next: Id, db: Tables, now: nat, c: Cmd)
    requires Ready(log, next, db) && c.ConfirmForgotPassword?
    ensures Keeps(log, next, ConfirmForgotTxn(db, now, c))
  {
    hide Replay;
    hide SoundLog;
    hide Facts;
    StoredFit(log, next, db);
    var t := ConfirmForgotTxn(db, now, c);
    if t.Ok? {
      var u := WithClientUser(db, c.client, c.name).value;
      var s := SetPassword(u, c.password, true, c.conforms).value;
      var used := VerifyUsed(VerifyKey(u.key, ResetCode));
      TakeThenSave(log, next, db, used, s);
      var pre := [used] + [UserSaved(s)];
      if EMAIL in s.attributes {
        var v := s.(attributes := s.attributes[EMAIL_VERIFIED := "true"]);
        MarkVerified(log, next, pre, s, v);
        assert t.events == pre + [UserSaved(v)];
      } else {
        assert t.events == pre;
      }
    }
  }

  // ---- Tokens ----

  lemma {:induction false} ApiTokensSound(log: seq<Event>, next: Id, now: nat, pre: seq<Event>, client: Client,
                                          u: User, source: Source)
    requires Good(log, next) && Grows(log, next, pre) && NoIds(pre)
    requires KnownClient(log, client.id, u.key.pool) && !source.FromCode? && Stored(Replay(log + pre), u.key, u.sub)
    ensures Grows(log, next, pre + IssueApiTokens(next, now, client, u, source).events)
  {
    KnownLater(log, pre, client.id, u.key.pool);
    FactsHold(log + pre);
    IssueSound(log, next, now, pre, client, u,
               IssueOpts([ADMIN_SCOPE], None, Seconds(now), true, NewFamily(true, source)));
  }

  lemma {:induction false} ChallengeSound(log: seq<Event>, next: Id, now: nat, client: Client, u: User)
    requires Good(log, next)
    ensures Grows(log, next, CreateChallenge(next, now, client, u).events)
  {
    GrowOne(log, next, CreateChallenge(next, now, client, u).events[0]);
  }

  lemma {:induction false} InitiateAuthSound(log: seq<Event>, next: Id, db: Tables, now: nat, c: Cmd)
    requires Ready(log, next, db) && c.InitiateAuth?
    ensures Keeps(log, next, InitiateAuthTxn(db, next, now, c))
  {
    FactsHold(log);
    var t := InitiateAuthTxn(db, next, now, c);
    if t.Ok? {
      var client := db.clients[c.client];
      var u := db.users[UserKey(client.pool, c.name)];
      ClientInLog(log, db, c.client);
      GrowNone(log, next);
      assert log + [] == log;
      ApiTokensSound(log, next, now, [], client, u, FromPassword);
      ChallengeSound(log, next, now, client, u);
    }
  }

  /** The family a refresh row belongs to is known, live, and of the presenting client's pool. */
  lemma {:induction false} RefreshFamily(log: seq<Event>, db: Tables, client: Client, r: Id) returns (j: nat)
    requires SoundLog(log) && Facts(log) && db == Replay(log)
    requires ClientSaved(client) in log && r in db.refresh && db.refresh[r].client == client.id
    ensures j < |log| && StartsRefresh(log[j], r, db.refresh[r])
    ensures db.refresh[r].owner.pool == client.pool
    ensures !OriginRevoked(db, db.refresh[r].origin) ==> Live(db, FamilyGrant(log[j]))
  {
    SoundIsOrderly(log);
    OrderlyIsLinked(log);
    j :| 0 <= j < |log| && StartsRefresh(log[j], r, db.refresh[r]);
    FamilyPool(log, client, j);
    RefreshLinked(log, j);
  }

  /** A family belongs to the pool of its client. */
  lemma {:induction false} FamilyPool(log: seq<Event>, client: Client, j: nat)
    requires SoundLog(log) && Facts(log) && ClientSaved(client) in log
    requires j < |log| && log[j].FamilyStarted? && log[j].clientId == client.id
    ensures log[j].owner.pool == client.pool
  {
    assert SoundHere(log, j);
    KnownLater(log[..j], log[j..], client.id, log[j].owner.pool);
    assert log[..j] + log[j..] == log;
    PoolOfClient(log, client, log[j].owner.pool);
  }

  /** An unrevoked family row means a live family. */
  lemma {:induction false} RefreshLinked(log: seq<Event>, j: nat)
    requires SoundLog(log) && j < |log| && log[j].FamilyStarted?
    ensures !OriginRevoked(Replay(log), log[j].origin) ==> Live(Replay(log), FamilyGrant(log[j]))
  {
    SoundIsOrderly(log);
    OrderlyIsLinked(log);
    assert Linked(Replay(log), log[j]);
  }

  lemma {:induction false} RefreshSound(log: seq<Event>, next: Id, db: Tables, now: nat, client: Client, r: Id)
    requires Ready(log, next, db) && ClientSaved(client) in log
    ensures Keeps(log, next, CognitoService.Refresh(db, next, now, client, r))
  {
    FactsHold(log);
    var t := CognitoService.Refresh(db, next, now, client, r);
    if t.Ok? {
      var row := db.refresh[r];
      var j := RefreshFamily(log, db, client, r);
      var u := db.users[row.owner];
      var scopes := Words(row.scope);
      WordsStable(row.scope);
      SavedIsKnown(log, client);
      var opts := IssueOpts(scopes, None, row.authTime, OPENID in scopes || ADMIN_SCOPE in scopes, SameFamily(row.origin));
      assert log + [] == log;
      assert LineageFits(log + [], client, u, opts, next);
      GrowNone(log, next);
      IssueSound(log, next, now, [], client, u, opts);
      assert [] + t.events == t.events;
    }
  }

  lemma {:induction false} StoredFit(log: seq<Event>, next: Id, db: Tables)
    requires Ready(log, next, db)
    ensures UsersFit(db)
  {
    FactsHold(log);
  }

  lemma {:induction false} AnswerSound(log: seq<Event>, next: Id, db: Tables, now: nat, client: Client,
                                       challenge: ChallengeName, session: Id, pw: string, conforms: bool)
    requires Ready(log, next, db)
    ensures var t := AnswerTxn(db, now, client, challenge, session, pw, conforms);
            t.Ok? ==>
              && Grows(log, next, t.events) && Facts(log + t.events)
              && NoIds(t.events) && t.value.key in db.users && t.value.key.pool == client.pool
              && Replay(log + t.events).users == db.users[t.value.key := t.value]
              && Replay(log + t.events).pools == db.pools
  {
    hide SoundLog;
    hide Replay;
    hide Facts;
    StoredFit(log, next, db);
    var t := AnswerTxn(db, now, client, challenge, session, pw, conforms);
    if t.Ok? {
      TakeThenSave(log, next, db, ChallengeTaken(session), t.value);
      assert t.events == [ChallengeTaken(session)] + [UserSaved(t.value)];
    }
  }

  lemma {:induction false} RespondSound(log: seq<Event>, next: Id, db: Tables, now: nat, c: Cmd)
    requires Ready(log, next, db) && c.RespondToChallenge?
    ensures Keeps(log, next, RespondTxn(db, next, now, c))
  {
    FactsHold(log);
    var t := RespondTxn(db, next, now, c);
    if t.Ok? {
      var client := db.clients[c.client];
      ClientInLog(log, db, c.client);
      AnswerSound(log, next, db, now, client, c.challenge, c.session, c.password, c.conforms);
      var s := AnswerTxn(db, now, client, c.challenge, c.session, c.password, c.conforms);
      RespondTail(log, next, db, now, c, client, s);
    }
  }

  lemma {:induction false} UpdateNoIds(db: Tables, settings: Pool, u: User, attrs: seq<(string, string)>)
    ensures var t := UpdateAttributes(db, settings, u, attrs); t.Ok? ==> NoIds(t.events)
  {
  }

  lemma {:induction false} RespondTail(log: seq<Event>, next: Id, db: Tables, now: nat, c: Cmd, client: Client,
                                       s: Txn<User>)
    requires Ready(log, next, db) && c.RespondToChallenge? && s.Ok? && client.pool in db.pools
    requires KnownClient(log, client.id, client.pool)
    requires Grows(log, next, s.events) && Facts(log + s.events) && NoIds(s.events)
    requires s.value.key in db.users && s.value.key.pool == client.pool
    requires Replay(log + s.events).users == db.users[s.value.key := s.value]
    requires Replay(log + s.events).pools == db.pools
    ensures var db' := EffectAll(db, s.events);
            var s' := if c.attrs == [] then Ok(s.value, [])
                      else UpdateAttributes(db', db.pools[client.pool], s.value, c.attrs);
            s'.Ok? ==> Grows(log, next, s.events + s'.events
                                        + IssueApiTokens(next, now, client, s'.value, FromChallenge(c.session)).events)
  {
    hide SoundLog;
    hide IssueTokens;
    hide UpdateAttributes;
    hide EmailFree;
    FactsHold(log);
    ReplayAppend(log, s.events);
    var db' := EffectAll(db, s.events);
    UpdateSound(log, next, s.events, db', s.value, c.attrs);
    var s' := if c.attrs == [] then Ok(s.value, []) else UpdateAttributes(db', db.pools[client.pool], s.value, c.attrs);
    if s'.Ok? {
      assert s.events + [] == s.events;
      UpdateNoIds(db', db.pools[client.pool], s.value, c.attrs);
      ApiTokensSound(log, next, now, s.events + s'.events, client, s'.value, FromChallenge(c.session));
    }
  }
}
