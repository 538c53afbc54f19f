/** The service as it runs: one field per table, methods that read and write rows statement by statement.
    Each method is proved to do what the operation of the same name in CognitoService decides. */
module CognitoStore {
  import opened Options
  import opened Text
  import opened CognitoTables
  import opened CognitoService

  datatype Result<+T> = Success(value: T) | Failure(error: Error)

  /** What a transaction can change: the tables, and the tokens signed so far. */
  datatype Snapshot = Snapshot(db: Tables, signed: set<Token>)

  /** The tokens signed in the course of a transaction. */
  ghost function MintedIn(es: seq<Event>): set<Token> {
    set e | e in es && e.Minted? :: e.token
  }

  ghost function After(s: Snapshot, es: seq<Event>): Snapshot {
    Snapshot(EffectAll(s.db, es), s.signed + MintedIn(es))
  }

  /** After one event that signs nothing. */
  ghost function Saved(s: Snapshot, e: Event): Snapshot { Snapshot(Effect(s.db, e), s.signed) }

  lemma {:induction false} AfterNone(s: Snapshot)
    ensures After(s, []) == s
  {
    assert MintedIn([]) == {};
  }

  lemma {:induction false} AfterOne(s: Snapshot, e: Event)
    requires !e.Minted?
    ensures After(s, [e]) == Saved(s, e)
  {
    hide Effect;
    EffectOne(s.db, e);
    assert MintedIn([e]) == {};
  }

  lemma {:induction false} AfterConcat(s: Snapshot, es: seq<Event>, es': seq<Event>)
    ensures After(s, es + es') == After(After(s, es), es')
  {
    hide Effect;
    EffectConcat(s.db, es, es');
    forall t
      ensures t in MintedIn(es + es') <==> t in MintedIn(es) || t in MintedIn(es')
    {
      assert t in MintedIn(es + es') <==> Minted(t) in es + es';
      assert t in MintedIn(es) <==> Minted(t) in es;
      assert t in MintedIn(es') <==> Minted(t) in es';
    }
  }

  /** The method's result, the tables it leaves and the tokens it signs are those of the transaction part `t`.
      After a failure they are not described: the enclosing transaction rolls them back. */
  ghost predicate Does<T(!new)>(before: Snapshot, after: Snapshot, r: Result<T>, t: Txn<T>) {
    match t
    case Ok(value, events) => r == Success(value) && after == After(before, events)
    case Err(error) => r == Failure(error)
  }

  /** Signing writes to no table. */
  lemma {:induction false} MintedLeaves(db: Tables, es: seq<Event>)
    requires forall e :: e in es ==> e.Minted?
    ensures EffectAll(db, es) == db
    decreases |es|
  {
    if es != [] {
      assert es[0].Minted? && Effect(db, es[0]) == db;
      MintedLeaves(db, es[1..]);
    }
  }

  /** The tables with a new family's rows. */
  ghost function StartFamily(db: Tables, e: Event): Tables
    requires e.FamilyStarted?
  {
    var origins := db.origins[e.origin := OriginRow(e.owner, e.clientId, false)];
    if e.grant.None? then db.(origins := origins)
    else
      var row := RefreshRow(e.owner, e.clientId, e.origin, e.scope, e.authTime, e.grant.value.expiresAt, false);
      db.(origins := origins, refresh := db.refresh[e.grant.value.token := row])
  }

  /** Of the events of an issue only the start of a family writes rows. */
  lemma IssueEffect(db: Tables, next: Id, now: nat, client: Client, u: User, opts: IssueOpts)
    ensures var es := IssueTokens(next, now, client, u, opts).events;
            EffectAll(db, es) == if opts.lineage.NewFamily? then StartFamily(db, es[0]) else db
  {
    var es := IssueTokens(next, now, client, u, opts).events;
    if opts.lineage.NewFamily? {
      MintedLeaves(Effect(db, es[0]), es[1..]);
    } else {
      MintedLeaves(db, es);
    }
  }

  lemma IssueMints(next: Id, now: nat, client: Client, u: User, opts: IssueOpts)
    ensures var t := IssueTokens(next, now, client, u, opts);
            MintedIn(t.events) == {t.value.access} + if t.value.identity.Some? then {t.value.identity.value} else {}
  {
    var t := IssueTokens(next, now, client, u, opts);
    assert Minted(t.value.access) in t.events;
    if t.value.identity.Some? {
      assert Minted(t.value.identity.value) in t.events;
    }
  }

  /** Every stored user sits under its own key; no event breaks this. */
  ghost predicate Keyed(users: map<UserKey, User>) {
    forall k :: k in users ==> users[k].key == k
  }

  lemma {:induction false} KeyedKept(db: Tables, es: seq<Event>)
    requires Keyed(db.users)
    ensures Keyed(EffectAll(db, es).users)
    decreases |es|
  {
    if es != [] {
      KeyedKept(Effect(db, es[0]), es[1..]);
    }
  }

  class Store {
    var pools: map<Id, Pool>
    var clients: map<Id, Client>
    var users: map<UserKey, User>
    var codes: map<Id, CodeRow>
    var sessions: map<Id, SessionRow>
    var origins: map<Id, OriginRow>
    var refresh: map<Id, RefreshRow>
    var challenges: map<Id, ChallengeRow>
    var verify: map<VerifyKey, VerifyRow>
    /** Tokens signed with the server's key. */
    var signed: set<Token>

    ghost function View(): Tables
      reads this
    {
      Tables(pools, clients, users, codes, sessions, origins, refresh, challenges, verify)
    }

    ghost function Now(): Snapshot
      reads this
    {
      Snapshot(View(), signed)
    }

    constructor ()
      ensures Now() == Snapshot(EMPTY_TABLES, {})
    {
      pools, clients, users, codes, sessions := map[], map[], map[], map[], map[];
      origins, refresh, challenges, verify, signed := map[], map[], map[], map[], {};
    }

    /** Back to where a transaction began. */
    method Rollback(saved: Snapshot)
      modifies this
      ensures Now() == saved
    {
      pools, clients, users := saved.db.pools, saved.db.clients, saved.db.users;
      codes, sessions, origins := saved.db.codes, saved.db.sessions, saved.db.origins;
      refresh, challenges, verify := saved.db.refresh, saved.db.challenges, saved.db.verify;
      signed := saved.signed;
    }

    /** Where a transaction begins. */
    method Begin() returns (saved: Snapshot)
      ensures saved == Now()
    {
      saved := Snapshot(Tables(pools, clients, users, codes, sessions, origins, refresh, challenges, verify), signed);
    }

    method DeletePool(p: Id) returns (r: Result<()>)
      modifies this
      ensures Does(old(Now()), Now(), r, CognitoService.DeletePool(old(View()), p))
    {
      hide ClientsAfter;
      hide UsersAfter;
      hide CodesAfter;
      hide SessionsAfter;
      hide OriginsAfter;
      hide RefreshAfter;
      hide ChallengesAfter;
      hide VerifyAfter;
      if p !in pools {
        return Failure(ResourceNotFound);
      }
      if pools[p].deletionProtected {
        return Failure(InvalidParameter);
      }
      ghost var e := PoolDeleted(p);
      DeletePoolMembers(p);
      pools := pools - {p};
      DeletePoolLogins(p);
      DeletePoolGrants(p);
      AfterOne(old(Now()), e);
      r := Success(());
    }

    method DeletePoolMembers(p: Id)
      modifies this`clients, this`users
      ensures clients == ClientsAfter(old(clients), PoolDeleted(p))
      ensures users == UsersAfter(old(users), PoolDeleted(p))
    {
      clients := map i | i in clients && clients[i].pool != p :: clients[i];
      users := map k | k in users && k.pool != p :: users[k];
    }

    method DeletePoolLogins(p: Id)
      modifies this`codes, this`sessions, this`challenges, this`verify
      ensures codes == CodesAfter(old(codes), PoolDeleted(p))
      ensures sessions == SessionsAfter(old(sessions), PoolDeleted(p))
      ensures challenges == ChallengesAfter(old(challenges), PoolDeleted(p))
      ensures verify == VerifyAfter(old(verify), PoolDeleted(p))
    {
      codes := map i | i in codes && codes[i].owner.pool != p :: codes[i];
      sessions := map i | i in sessions && sessions[i].owner.pool != p :: sessions[i];
      challenges := map i | i in challenges && challenges[i].owner.pool != p :: challenges[i];
      verify := map v | v in verify && v.owner.pool != p :: verify[v];
    }

    method DeletePoolGrants(p: Id)
      modifies this`origins, this`refresh
      ensures origins == OriginsAfter(old(origins), old(refresh), PoolDeleted(p))
      ensures refresh == RefreshAfter(old(refresh), PoolDeleted(p))
    {
      origins := map i | i in origins && origins[i].owner.pool != p :: origins[i];
      refresh := map i | i in refresh && refresh[i].owner.pool != p :: refresh[i];
    }

    method DeleteClient(p: Id, c: Id) returns (r: Result<()>)
      modifies this
      ensures Does(old(Now()), Now(), r, CognitoService.DeleteClient(old(View()), p, c))
    {
      if c !in clients || clients[c].pool != p {
        return Failure(ResourceNotFound);
      }
      clients := clients - {c};
      refresh := map i | i in refresh :: if refresh[i].client == c then refresh[i].(revoked := true) else refresh[i];
      AfterOne(old(Now()), ClientDeleted(c));
      r := Success(());
    }

    /** UPDATE of the user's row, which writes nothing if there is none. */
    method SaveUser(u: User)
      modifies this
      ensures Now() == if u.key in old(users) then Saved(old(Now()), UserSaved(u)) else old(Now())
    {
      if u.key in users {
        users := users[u.key := u];
      }
    }

    method DeleteUser(u: User)
      modifies this
      ensures Now() == Saved(old(Now()), UserDeleted(u.key))
    {
      users := users - {u.key};
      DeleteUserLogins(u.key);
      DeleteUserGrants(u.key);
    }

    method DeleteUserLogins(k: UserKey)
      modifies this`codes, this`sessions, this`challenges, this`verify
      ensures codes == CodesAfter(old(codes), UserDeleted(k))
      ensures sessions == SessionsAfter(old(sessions), UserDeleted(k))
      ensures challenges == ChallengesAfter(old(challenges), UserDeleted(k))
      ensures verify == VerifyAfter(old(verify), UserDeleted(k))
    {
      codes := map i | i in codes && codes[i].owner != k :: codes[i];
      sessions := map i | i in sessions && sessions[i].owner != k :: sessions[i];
      challenges := map i | i in challenges && challenges[i].owner != k :: challenges[i];
      verify := map v | v in verify && v.owner != k :: verify[v];
    }

    method DeleteUserGrants(k: UserKey)
      modifies this`origins, this`refresh
      ensures origins == OriginsAfter(old(origins), old(refresh), UserDeleted(k))
      ensures refresh == RefreshAfter(old(refresh), UserDeleted(k))
    {
      origins := map i | i in origins && origins[i].owner != k :: origins[i];
      refresh := map i | i in refresh && refresh[i].owner != k :: refresh[i];
    }

    /** Collects the requested attributes in order, dropping `sub`. */
    method GatherAttributes(attrs: seq<(string, string)>) returns (m: map<string, string>)
      ensures m == CollectAttributes(attrs)
    {
      m := map[];
      var i := 0;
      while i < |attrs|
        invariant 0 <= i <= |attrs|
        invariant m == CollectAttributes(attrs[..i])
      {
        assert attrs[..i + 1][..i] == attrs[..i];
        if attrs[i].0 != SUB {
          m := m[attrs[i].0 := attrs[i].1];
        }
        i := i + 1;
      }
      assert attrs[..i] == attrs;
    }

    method CreateUser(next: Id, p: Id, settings: Pool, req: NewUser, taken: bool) returns (r: Result<User>)
      modifies this
      ensures Does(old(Now()), Now(), r, CognitoService.CreateUser(old(View()), next, p, settings, req, taken))
    {
      var attrs := GatherAttributes(req.attributes);
      var name := Login(req.login);
      if settings.usernameAttributes != [] {
        if '@' in req.login && EMAIL in settings.usernameAttributes {
          attrs := attrs[EMAIL := req.login];
        } else if req.login != "" && req.login[0] == '+' && PHONE in settings.usernameAttributes {
          attrs := attrs[PHONE := req.login];
        } else {
          return Failure(InvalidParameter);
        }
        name := Generated(next);
      } else if req.login == "" {
        return Failure(InvalidParameter);
      }
      var key := UserKey(p, name);
      if taken || key in users {
        return Failure(UsernameExists);
      }
      if settings.EmailIsUsername() && EMAIL in attrs {
        var held := EmailIsTaken(p, attrs[EMAIL], None);
        if held {
          return Failure(UsernameExists);
        }
      }
      var u := User(key, next, attrs, req.password, req.status, true, 0);
      users := users[key := u];
      AfterOne(old(Now()), UserSaved(u));
      r := Success(u);
    }

    method EmailIsTaken(p: Id, email: string, except: Option<Username>) returns (held: bool)
      ensures held == EmailTaken(View(), p, email, except)
    {
      held := exists k :: k in users && k.pool == p && Some(k.name) != except && HasEmail(users[k], email);
    }

    /** Applies the updates one by one; the row is saved only if none is refused. */
    method UpdateAttributes(settings: Pool, u0: User, attrs: seq<(string, string)>) returns (r: Result<User>)
      requires u0.key in users
      modifies this
      ensures Does(old(Now()), Now(), r, CognitoService.UpdateAttributes(old(View()), settings, u0, attrs))
    {
      var keepEmail := exists i :: 0 <= i < |attrs| && attrs[i].0 == EMAIL_VERIFIED;
      var keepPhone := exists i :: 0 <= i < |attrs| && attrs[i].0 == PHONE_VERIFIED;
      var u := u0;
      var i := 0;
      while i < |attrs|
        invariant 0 <= i <= |attrs|
        invariant u.key == u0.key && Now() == old(Now())
        invariant AssignAll(View(), settings, u0, attrs, keepEmail, keepPhone)
               == AssignAll(View(), settings, u, attrs[i..], keepEmail, keepPhone)
      {
        var (k, v) := attrs[i];
        assert attrs[i..][0] == attrs[i] && attrs[i..][1..] == attrs[i + 1..];
        if k == SUB {
          return Failure(InvalidParameter);
        }
        if k == EMAIL && settings.EmailIsUsername() {
          var held := EmailIsTaken(u.key.pool, v, Some(u.key.name));
          if held {
            return Failure(AliasExists);
          }
        }
        u := SetAttribute(u, k, v, keepEmail, keepPhone);
        i := i + 1;
      }
      SaveUser(u);
      AfterOne(old(Now()), UserSaved(u));
      r := Success(u);
    }

    method SetPassword(u: User, pw: string, permanent: bool, conforms: bool) returns (r: Result<User>)
      requires u.key in users
      modifies this
      ensures Does(old(Now()), Now(), r, CognitoService.SetPassword(u, pw, permanent, conforms))
    {
      if !conforms {
        return Failure(InvalidPassword);
      }
      var u' := u.(password := Some(pw), status := if permanent then CONFIRMED else FORCE_CHANGE_PASSWORD);
      SaveUser(u');
      AfterOne(old(Now()), UserSaved(u'));
      r := Success(u');
    }

    method CreateChallenge(next: Id, now: nat, client: Client, u: User) returns (session: Id)
      modifies this
      ensures Does(old(Now()), Now(), Success(session), CognitoService.CreateChallenge(next, now, client, u))
    {
      session := next;
      var expires := now + client.sessionMinutes * 60_000;
      challenges := challenges[session :=
        ChallengeRow(UserKey(client.pool, u.key.name), client.id, NewPasswordRequired, expires)];
      AfterOne(old(Now()), ChallengeIssued(session, challenges[session]));
    }

    method TakeChallenge(now: nat, client: Client, session: Id, name: ChallengeName) returns (r: Result<User>)
      modifies this
      ensures Does(old(Now()), Now(), r, CognitoService.TakeChallenge(old(View()), now, client, session, name))
    {
      if session !in challenges {
        return Failure(InvalidSession);
      }
      var row := challenges[session];
      if row.client != client.id || row.expiresAt < now {
        return Failure(InvalidSession);
      }
      if row.name != name {
        return Failure(InvalidParameter);
      }
      challenges := challenges - {session};
      AfterOne(old(Now()), ChallengeTaken(session));
      var k := UserKey(client.pool, row.owner.name);
      if k !in users {
        return Failure(InvalidSession);
      }
      r := Success(users[k]);
    }

    /** Signs the access token and, when asked for, the identity token. */
    method Sign(next: Id, now: nat, client: Client, u: User, opts: IssueOpts, origin: Id)
      returns (access: Token, identity: Option<Token>)
      requires origin == if opts.lineage.SameFamily? then opts.lineage.origin else next
      modifies this`signed
      ensures var t := CognitoService.IssueTokens(next, now, client, u, opts);
              && signed == old(signed) + MintedIn(t.events)
              && access == t.value.access && identity == t.value.identity
    {
      var iat := Seconds(now);
      access := Access(next + 1, u.sub, u.key, client.id, origin, Join(opts.scopes), opts.authTime,
                       iat, iat + client.accessTtl);
      signed := signed + {access};
      identity := None;
      if opts.identity {
        var id := Identity(next + 2, u.sub, u.key, client.id, origin, opts.nonce, opts.authTime, iat, iat + client.idTtl);
        signed := signed + {id};
        identity := Some(id);
      }
      IssueMints(next, now, client, u, opts);
    }

    /** Writes the rows of a new family: its origin and, when asked for, its refresh token. */
    method WriteFamily(next: Id, now: nat, client: Client, u: User, opts: IssueOpts)
      returns (origin: Id, token: Option<Id>)
      modifies this`origins, this`refresh
      ensures var t := CognitoService.IssueTokens(next, now, client, u, opts);
              && View() == (if opts.lineage.NewFamily? then StartFamily(old(View()), t.events[0]) else old(View()))
              && origin == (if opts.lineage.SameFamily? then opts.lineage.origin else next) && token == t.value.refresh
    {
      origin, token := next, None;
      match opts.lineage {
        case SameFamily(o) => origin := o;
        case NewFamily(withRefresh, _) =>
          origins := origins[origin := OriginRow(u.key, client.id, false)];
          if withRefresh {
            var row := RefreshRow(u.key, client.id, origin, Join(opts.scopes), opts.authTime,
                                  now + client.refreshTtl * 1000, false);
            refresh := refresh[next + 3 := row];
            token := Some(next + 3);
          }
      }
    }

    method IssueTokens(next: Id, now: nat, client: Client, u: User, opts: IssueOpts) returns (ts: TokenSet)
      modifies this
      ensures Does(old(Now()), Now(), Success(ts), CognitoService.IssueTokens(next, now, client, u, opts))
    {
      hide EffectAll;
      hide MintedIn;
      hide StartFamily;
      IssueEffect(View(), next, now, client, u, opts);
      var origin, token := WriteFamily(next, now, client, u, opts);
      var access, identity := Sign(next, now, client, u, opts, origin);
      ts := TokenSet(access, identity, token, client.accessTtl);
    }

    method IssueApiTokens(next: Id, now: nat, client: Client, u: User, source: Source) returns (ts: TokenSet)
      modifies this
      ensures Does(old(Now()), Now(), Success(ts), CognitoService.IssueApiTokens(next, now, client, u, source))
    {
      var opts := IssueOpts([ADMIN_SCOPE], None, Seconds(now), true, NewFamily(true, source));
      ts := IssueTokens(next, now, client, u, opts);
    }

    method Refresh(next: Id, now: nat, client: Client, r: Id) returns (result: Result<TokenSet>)
      modifies this
      ensures Does(old(Now()), Now(), result, CognitoService.Refresh(old(View()), next, now, client, r))
    {
      if r !in refresh || refresh[r].client != client.id {
        return Failure(InvalidRefreshToken);
      }
      var row := refresh[r];
      if row.revoked || row.origin !in origins || origins[row.origin].revoked {
        return Failure(RefreshTokenRevoked);
      }
      if row.expiresAt < now {
        return Failure(RefreshTokenExpired);
      }
      if client.pool !in pools {
        return Failure(ResourceNotFound);
      }
      var k := UserKey(client.pool, row.owner.name);
      if k !in users {
        return Failure(InvalidRefreshToken);
      }
      if !users[k].enabled {
        return Failure(UserIsDisabled);
      }
      var scopes := Words(row.scope);
      var identity := OPENID in scopes || ADMIN_SCOPE in scopes;
      var ts := IssueTokens(next, now, client, users[k],
                            IssueOpts(scopes, None, row.authTime, identity, SameFamily(row.origin)));
      result := Success(ts);
    }

    method RevokeRefresh(client: Client, r: Id) returns (result: Result<bool>)
      modifies this
      ensures Does(old(Now()), Now(), result, CognitoService.RevokeRefresh(old(View()), client, r))
    {
      AfterNone(Now());
      if r !in refresh {
        return Success(false);
      }
      if refresh[r].client != client.id {
        return Failure(Unauthorized);
      }
      var origin := refresh[r].origin;
      refresh := refresh[r := refresh[r].(revoked := true)];
      if origin in origins {
        origins := origins[origin := origins[origin].(revoked := true)];
      }
      AfterOne(old(Now()), RefreshRevoked(r));
      result := Success(true);
    }

    method ValidateAccess(t: Token, now: nat) returns (r: Result<User>)
      ensures Does(Now(), Now(), r, CognitoService.ValidateAccess(View(), t in signed, t, now))
    {
      AfterNone(Now());
      if t !in signed || t.Identity? {
        return Failure(InvalidAccessToken);
      }
      if t.exp < Seconds(now) {
        return Failure(AccessTokenExpired);
      }
      if t.ClientAccess? || t.owner.pool !in pools {
        return Failure(InvalidAccessToken);
      }
      if t.owner !in users {
        return Failure(UserNotFound);
      }
      if t.origin !in origins || origins[t.origin].revoked {
        return Failure(AccessTokenRevoked);
      }
      if !users[t.owner].enabled {
        return Failure(UserIsDisabled);
      }
      r := Success(users[t.owner]);
    }

    method GlobalSignOut(now: nat, u: User)
      requires u.key in users && users[u.key] == u
      modifies this
      ensures Now() == Saved(old(Now()), SignedOut(u.key, now))
    {
      var k := u.key;
      origins := map i | i in origins :: if origins[i].owner == k then origins[i].(revoked := true) else origins[i];
      refresh := map i | i in refresh :: if refresh[i].owner == k then refresh[i].(revoked := true) else refresh[i];
      sessions := map i | i in sessions && sessions[i].owner != k :: sessions[i];
      SaveUser(u.(tokensValidAfter := now));
    }

    method CreateSession(next: Id, now: nat, u: User, authTime: int) returns (session: Id)
      modifies this
      ensures Does(old(Now()), Now(), Success(session), CognitoService.CreateSession(next, now, u, authTime))
    {
      session := next;
      sessions := sessions[session := SessionRow(u.key, authTime, now + SESSION_TTL)];
      AfterOne(old(Now()), SessionStarted(session, now, sessions[session]));
    }

    method SessionUser(now: nat, p: Id, session: Id) returns (r: Option<(User, int)>)
      ensures r == CognitoService.SessionUser(View(), now, p, session)
    {
      if session !in sessions || sessions[session].owner.pool != p {
        return None;
      }
      var row := sessions[session];
      if row.expiresAt < now || row.owner !in users {
        return None;
      }
      var u := users[row.owner];
      if !u.enabled || u.status != CONFIRMED {
        return None;
      }
      r := Some((u, row.authTime));
    }

    method DeleteSession(session: Id)
      modifies this
      ensures Now() == Saved(old(Now()), SessionEnded(session))
    {
      sessions := sessions - {session};
    }

    method CreateCode(next: Id, now: nat, p: Id, a: Approval, u: User, authTime: int) returns (code: Id)
      modifies this
      ensures Does(old(Now()), Now(), Success(code), CognitoService.CreateCode(next, now, p, a, u, authTime))
    {
      code := next;
      codes := codes[code := CodeRow(UserKey(p, u.key.name), a.client.id, a.redirectUri, Join(a.scopes), a.challenge,
                                     a.challengeMethod, a.nonce, authTime, now + CODE_TTL, false)];
      AfterOne(old(Now()), CodeIssued(code, now, codes[code]));
    }

    /** Marks the code used before it looks at whether it still was usable. */
    method TakeCode(now: nat, code: Id) returns (r: Option<CodeRow>)
      modifies this
      ensures Does(old(Now()), Now(), Success(r), CognitoService.TakeCode(old(View()), now, code))
    {
      AfterNone(Now());
      if code !in codes {
        return None;
      }
      var row := codes[code];
      codes := codes[code := row.(used := true)];
      AfterOne(old(Now()), CodeTaken(code));
      if row.used || row.expiresAt < now {
        return None;
      }
      r := Some(row);
    }

    method SetCode(now: nat, u: User, kind: VerifyKind, code: string)
      modifies this
      ensures Does(old(Now()), Now(), Success(()), CognitoService.SetCode(now, u, kind, code))
    {
      verify := verify[VerifyKey(u.key, kind) := VerifyRow(code, now + VERIFY_TTL)];
      AfterOne(old(Now()), VerifySet(VerifyKey(u.key, kind), VerifyRow(code, now + VERIFY_TTL)));
    }

    method CheckCode(now: nat, u: User, kind: VerifyKind, code: string) returns (r: Result<()>)
      modifies this
      ensures Does(old(Now()), Now(), r, CognitoService.CheckCode(old(View()), now, u, kind, code))
    {
      var v := VerifyKey(u.key, kind);
      if v !in verify || verify[v].code != Trim(code) {
        return Failure(CodeMismatch);
      }
      if verify[v].expiresAt < now {
        return Failure(ExpiredCode);
      }
      verify := verify - {v};
      AfterOne(old(Now()), VerifyUsed(v));
      r := Success(());
    }

    /** The password check, in the source's order of refusals. */
    method Authenticate(client: Client, k: UserKey, password: string) returns (r: Result<AuthOutcome>)
      ensures Does(Now(), Now(), r, CognitoService.Authenticate(View(), client, k, password))
    {
      AfterNone(Now());
      if k !in users {
        return Failure(if client.hideUsers then BadCredentials else UserNotFound);
      }
      var u := users[k];
      if !u.enabled {
        return Failure(UserIsDisabled);
      }
      if u.password != Some(password) {
        return Failure(BadCredentials);
      }
      match u.status {
        case UNCONFIRMED => r := Failure(UserNotConfirmed);
        case RESET_REQUIRED => r := Failure(PasswordResetRequired);
        case FORCE_CHANGE_PASSWORD => r := Success(MustChangePassword(u));
        case CONFIRMED => r := Success(SignedInAs(u));
      }
    }
  }
}
