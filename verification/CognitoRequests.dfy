/** What each administrative and self-service request does: when it is answered, and the tables it leaves. Every law
    speaks of the request's step alone, not of the operations it is made of. */
module CognitoRequests {
  import opened Options
  import opened Text
  import opened CognitoTables
  import opened CognitoService
  import opened CognitoLog
  import opened CognitoServer
  import opened CognitoTheorems

  /** The request is answered exactly if `ok`, and then leaves these tables; a refusal leaves all as it was. */
  predicate Outcome(w: World, s: (World, Answer), ok: bool, reply: Reply, db: Tables) {
    if ok then s.1 == Replied(reply) && s.0.db == db else s.1.Failed? && s.0.db == w.db
  }

  lemma {:induction false} ApiStep(w: World, now: nat, c: Cmd)
    requires IsApi(c)
    ensures var t := ApiTxn(w, now, c);
            Step(w, now, c) == (if t.Ok? then Commit(w, t.events) else w, AnswerTo(t))
  {
    hide ApiTxn;
    hide EntryHop;
    hide ProcHop;
  }

  lemma {:induction false} DirectoryStep(w: World, now: nat, c: Cmd)
    requires IsDirectory(c)
    ensures var t := DirectoryTxn(w.db, w.next, c);
            Step(w, now, c) == (if t.Ok? then Commit(w, t.events) else w, AnswerTo(t))
  {
    hide Step;
    hide DirectoryTxn;
    ApiStep(w, now, c);
  }

  lemma {:induction false} AdminStep(w: World, now: nat, c: Cmd)
    requires IsUserAdmin(c)
    ensures var t := UserAdminTxn(w.db, w.next, now, c);
            Step(w, now, c) == (if t.Ok? then Commit(w, t.events) else w, AnswerTo(t))
  {
    hide Step;
    hide UserAdminTxn;
    ApiStep(w, now, c);
  }

  lemma {:induction false} ServiceStep(w: World, now: nat, c: Cmd)
    requires IsSelfService(c)
    ensures var t := SelfServiceTxn(w, now, c);
            Step(w, now, c) == (if t.Ok? then Commit(w, t.events) else w, AnswerTo(t))
  {
    hide Step;
    hide SelfServiceTxn;
    ApiStep(w, now, c);
  }

  /** What every reached state keeps: users stand under their keys, in pools that are there, and clients under theirs. */
  predicate RowsFit(db: Tables) {
    UsersFit(db) && forall c :: c in db.clients ==> db.clients[c].id == c
  }

  lemma {:induction false} ReachedRows(w: World)
    requires Reached(w)
    ensures RowsFit(w.db)
  {
    hide UsersFit;
    hide EmailsFree;
    hide SubsKnown;
    hide Replay;
    ReachedInv(w);
  }

  lemma {:induction false} CommitOne(w: World, e: Event)
    ensures Commit(w, [e]).db == Effect(w.db, e)
  {
    hide Effect;
    EffectOne(w.db, e);
  }

  lemma {:induction false} CommitTwo(w: World, e: Event, e': Event)
    ensures Commit(w, [e, e']).db == Commit(w, [e] + [e']).db == Effect(Effect(w.db, e), e')
  {
    hide Effect;
    EffectTwo(w.db, e, e');
    assert [e] + [e'] == [e, e'];
  }

  // ---- Pools and clients ----

  lemma {:induction false} PoolCreated(w: World, now: nat, settings: Pool)
    ensures Outcome(w, Step(w, now, CreatePool(settings)), w.next !in w.db.pools, Done,
                    w.db.(pools := w.db.pools[w.next := settings]))
  {
    hide Step;
    DirectoryStep(w, now, CreatePool(settings));
    CommitOne(w, PoolSaved(w.next, settings));
  }

  /** An update never changes what users sign in with. */
  lemma {:induction false} PoolUpdated(w: World, now: nat, p: Id, settings: Pool)
    ensures var ok := p in w.db.pools;
            Outcome(w, Step(w, now, UpdatePool(p, settings)), ok, Done,
                    if ok then var kept := settings.(usernameAttributes := w.db.pools[p].usernameAttributes);
                               w.db.(pools := w.db.pools[p := kept])
                    else w.db)
  {
    hide Step;
    DirectoryStep(w, now, UpdatePool(p, settings));
    if p in w.db.pools {
      CommitOne(w, PoolSaved(p, settings.(usernameAttributes := w.db.pools[p].usernameAttributes)));
    }
  }

  /** Those who go with a deletion. */
  datatype Gone = OneUser(key: UserKey) | AllOf(pool: Id)
  {
    predicate Has(k: UserKey) { if OneUser? then k == key else k.pool == pool }
  }

  /** The tables without these users and all rows they own. */
  function WithoutOwners(db: Tables, gone: Gone): Tables {
    db.(users := map k | k in db.users && !gone.Has(k) :: db.users[k],
        codes := map i | i in db.codes && !gone.Has(db.codes[i].owner) :: db.codes[i],
        sessions := map i | i in db.sessions && !gone.Has(db.sessions[i].owner) :: db.sessions[i],
        origins := map i | i in db.origins && !gone.Has(db.origins[i].owner) :: db.origins[i],
        refresh := map i | i in db.refresh && !gone.Has(db.refresh[i].owner) :: db.refresh[i],
        challenges := map i | i in db.challenges && !gone.Has(db.challenges[i].owner) :: db.challenges[i],
        verify := map v | v in db.verify && !gone.Has(v.owner) :: db.verify[v])
  }

  /** A pool goes with its clients, its users and everything they own; nothing of another pool does. */
  lemma {:induction false} PoolDeletedWhole(w: World, now: nat, p: Id)
    ensures Outcome(w, Step(w, now, Cmd.DeletePool(p)), p in w.db.pools && !w.db.pools[p].deletionProtected, Done,
                    WithoutOwners(w.db, AllOf(p)).(
                      pools := map i | i in w.db.pools && i != p :: w.db.pools[i],
                      clients := map c | c in w.db.clients && w.db.clients[c].pool != p :: w.db.clients[c]))
  {
    hide Step;
    hide Effect;
    hide WithoutOwners;
    DirectoryStep(w, now, Cmd.DeletePool(p));
    CommitOne(w, PoolDeleted(p));
    PoolPurged(w.db, p);
  }

  lemma {:induction false} PoolPurged(db: Tables, p: Id)
    ensures Effect(db, PoolDeleted(p)) ==
              WithoutOwners(db, AllOf(p)).(
                pools := map i | i in db.pools && i != p :: db.pools[i],
                clients := map c | c in db.clients && db.clients[c].pool != p :: db.clients[c])
  {
    OwnersPurged(db, PoolDeleted(p), AllOf(p));
    assert db.pools - {p} == map i | i in db.pools && i != p :: db.pools[i];
  }

  /** The event of that deletion. */
  predicate Purges(e: Event, gone: Gone) {
    e == if gone.OneUser? then UserDeleted(gone.key) else PoolDeleted(gone.pool)
  }

  /** It takes from each table of owned rows exactly those of the owners gone. */
  lemma {:induction false} OwnersPurged(db: Tables, e: Event, gone: Gone)
    requires Purges(e, gone)
    ensures var db', purged := Effect(db, e), WithoutOwners(db, gone);
            && db'.users == purged.users && db'.codes == purged.codes && db'.sessions == purged.sessions
            && db'.origins == purged.origins && db'.refresh == purged.refresh
            && db'.challenges == purged.challenges && db'.verify == purged.verify
  {
    hide Purges;
    hide UsersAfter;
    hide CodesAfter;
    hide SessionsAfter;
    hide OriginsAfter;
    hide RefreshAfter;
    hide ChallengesAfter;
    hide VerifyAfter;
    HoldersPurged(db, e, gone);
    FamiliesPurged(db, e, gone);
    PendingPurged(db, e, gone);
  }

  lemma {:induction false} HoldersPurged(db: Tables, e: Event, gone: Gone)
    requires Purges(e, gone)
    ensures UsersAfter(db.users, e) == WithoutOwners(db, gone).users
    ensures SessionsAfter(db.sessions, e) == WithoutOwners(db, gone).sessions
  {
  }

  lemma {:induction false} FamiliesPurged(db: Tables, e: Event, gone: Gone)
    requires Purges(e, gone)
    ensures OriginsAfter(db.origins, db.refresh, e) == WithoutOwners(db, gone).origins
    ensures RefreshAfter(db.refresh, e) == WithoutOwners(db, gone).refresh
  {
  }

  lemma {:induction false} PendingPurged(db: Tables, e: Event, gone: Gone)
    requires Purges(e, gone)
    ensures CodesAfter(db.codes, e) == WithoutOwners(db, gone).codes
    ensures ChallengesAfter(db.challenges, e) == WithoutOwners(db, gone).challenges
    ensures VerifyAfter(db.verify, e) == WithoutOwners(db, gone).verify
  {
  }

  lemma {:induction false} ClientCreated(w: World, now: nat, settings: Client)
    ensures Outcome(w, Step(w, now, CreateClient(settings)), settings.pool in w.db.pools && w.next !in w.db.clients, Done,
                    w.db.(clients := w.db.clients[w.next := settings.(id := w.next)]))
  {
    hide Step;
    DirectoryStep(w, now, CreateClient(settings));
    CommitOne(w, ClientSaved(settings.(id := w.next)));
  }

  predicate ClientOf(db: Tables, c: Id, p: Id) { c in db.clients && db.clients[c].pool == p }

  /** An update keeps the client's secret and its pool. */
  lemma {:induction false} ClientUpdated(w: World, now: nat, p: Id, settings: Client)
    ensures var ok := ClientOf(w.db, settings.id, p);
            Outcome(w, Step(w, now, UpdateClient(p, settings)), ok, Done,
                    if ok then var kept := settings.(pool := p, secret := w.db.clients[settings.id].secret);
                               w.db.(clients := w.db.clients[settings.id := kept])
                    else w.db)
  {
    hide Step;
    DirectoryStep(w, now, UpdateClient(p, settings));
    if ClientOf(w.db, settings.id, p) {
      CommitOne(w, ClientSaved(settings.(pool := p, secret := w.db.clients[settings.id].secret)));
    }
  }

  /** Deleting a client revokes its refresh tokens; codes, sessions and access tokens stay as they are. */
  lemma {:induction false} ClientDeletedWhole(w: World, now: nat, p: Id, c: Id)
    ensures Outcome(w, Step(w, now, Cmd.DeleteClient(p, c)), ClientOf(w.db, c, p), Done,
                    w.db.(clients := map i | i in w.db.clients && i != c :: w.db.clients[i],
                          refresh := map r | r in w.db.refresh ::
                                       w.db.refresh[r].(revoked := w.db.refresh[r].revoked || w.db.refresh[r].client == c)))
  {
    hide Step;
    DirectoryStep(w, now, Cmd.DeleteClient(p, c));
    CommitOne(w, ClientDeleted(c));
    assert w.db.clients - {c} == map i | i in w.db.clients && i != c :: w.db.clients[i];
  }

  // ---- The last assignment of a list ----

  /** The value the list gives to a name last. */
  predicate LastGiven(attrs: seq<(string, string)>, name: string, v: string) {
    exists i :: 0 <= i < |attrs| && attrs[i] == (name, v) && NotGiven(attrs[i + 1..], name)
  }

  predicate NotGiven(attrs: seq<(string, string)>, name: string) {
    forall j :: 0 <= j < |attrs| ==> attrs[j].0 != name
  }

  lemma {:induction false} GivenLast(attrs: seq<(string, string)>, name: string) returns (i: nat)
    requires !NotGiven(attrs, name)
    ensures i < |attrs| && attrs[i].0 == name && NotGiven(attrs[i + 1..], name) && LastGiven(attrs, name, attrs[i].1)
  {
    var n := |attrs| - 1;
    if attrs[n].0 == name {
      i := n;
    } else {
      i := GivenLast(attrs[..n], name);
      assert attrs[i + 1..] == attrs[..n][i + 1..] + [attrs[n]];
    }
    assert attrs[i] == (name, attrs[i].1);
  }

  lemma {:induction false} LastIsOne(attrs: seq<(string, string)>, name: string, v: string, v': string)
    requires LastGiven(attrs, name, v) && LastGiven(attrs, name, v')
    ensures v == v'
  {
  }

  // ---- New users ----

  /** A new user's attributes: the login fills in the attribute it is, every other is what was given last, and the sub
      is never one. */
  ghost predicate NewAttributes(a: map<string, string>, settings: Pool, login: string, attrs: seq<(string, string)>) {
    forall name ::
      if settings.usernameAttributes != [] && FilledBy(settings, login) == Some(name)
      then name in a && a[name] == login
      else
        && (name in a <==> name != SUB && !NotGiven(attrs, name))
        && (name in a ==> LastGiven(attrs, name, a[name]))
  }

  /** The attribute a login is, in a pool that signs users in by it: an email by its `@`, else a phone number by its
      `+`. */
  function FilledBy(settings: Pool, login: string): Option<string> {
    if EMAIL in settings.usernameAttributes && '@' in login then Some(EMAIL)
    else if PHONE in settings.usernameAttributes && "+" <= login then Some(PHONE)
    else None
  }

  lemma {:induction false} Collected(attrs: seq<(string, string)>, name: string)
    ensures var a := CollectAttributes(attrs);
            && (name in a <==> name != SUB && !NotGiven(attrs, name))
            && (name in a ==> LastGiven(attrs, name, a[name]))
  {
    if attrs != [] {
      var n := |attrs| - 1;
      var (k, v) := attrs[n];
      Collected(attrs[..n], name);
      if k == name {
        assert attrs[n] == (name, v) && NotGiven(attrs[n + 1..], name);
      } else if name in CollectAttributes(attrs[..n]) {
        var i := GivenLast(attrs[..n], name);
        LastIsOne(attrs[..n], name, attrs[i].1, CollectAttributes(attrs[..n])[name]);
        assert attrs[i + 1..] == attrs[..n][i + 1..] + [attrs[n]];
        assert LastGiven(attrs, name, attrs[i].1);
      }
      assert NotGiven(attrs, name) ==> NotGiven(attrs[..n], name);
    }
  }

  /** The user a registration makes, with the password and status it asks for: its name is the login, or the new sub when
      the pool signs users in by attribute. */
  ghost predicate IsNewUser(u: User, next: Id, p: Id, settings: Pool, req: NewUser) {
    && u.key == UserKey(p, if settings.usernameAttributes == [] then Login(req.login) else Generated(next))
    && u.sub == next && u.password == req.password && u.status == req.status && u.enabled && u.tokensValidAfter == 0
    && NewAttributes(u.attributes, settings, req.login, req.attributes)
  }

  /** The name is free and no user has the email, where emails are usernames. */
  predicate Free(db: Tables, settings: Pool, u: User) {
    && u.key !in db.users
    && (EMAIL in settings.usernameAttributes && EMAIL in u.attributes ==>
          !EmailTaken(db, u.key.pool, u.attributes[EMAIL], None))
  }

  /** The login is one the pool takes. */
  predicate LoginFits(settings: Pool, login: string) {
    if settings.usernameAttributes == [] then login != "" else FilledBy(settings, login).Some?
  }

  lemma {:induction false} RegistrationExactly(db: Tables, next: Id, p: Id, settings: Pool, req: NewUser, taken: bool)
    returns (u: User)
    ensures IsNewUser(u, next, p, settings, req)
    ensures var t := CreateUser(db, next, p, settings, req, taken);
            && (t.Ok? <==> LoginFits(settings, req.login) && !taken && Free(db, settings, u))
            && (t.Ok? ==> t.value == u && t.events == [UserSaved(u)])
  {
    hide EmailTaken;
    var byAttribute := settings.usernameAttributes != [];
    var filled := LoginAttribute(settings, req.login);
    var given := CollectAttributes(req.attributes);
    var attrs := if byAttribute && filled.Some? then given[filled.value := req.login] else given;
    u := User(UserKey(p, if byAttribute then Generated(next) else Login(req.login)), next, attrs, req.password, req.status,
              true, 0);
    forall name
      ensures if byAttribute && FilledBy(settings, req.login) == Some(name) then name in attrs && attrs[name] == req.login
              else
                && (name in attrs <==> name != SUB && !NotGiven(req.attributes, name))
                && (name in attrs ==> LastGiven(req.attributes, name, attrs[name]))
    {
      hide CollectAttributes;
      Collected(req.attributes, name);
    }
  }

  /** Two lists of facts about a new user's attributes pin the same map. */
  lemma {:induction false} NewUserIsOne(u: User, u': User, next: Id, p: Id, settings: Pool, req: NewUser)
    requires IsNewUser(u, next, p, settings, req) && IsNewUser(u', next, p, settings, req)
    ensures u == u'
  {
    var a, a' := u.attributes, u'.attributes;
    forall name
      ensures name in a <==> name in a'
      ensures name in a ==> a[name] == a'[name]
    {
      if name in a && name in a' && FilledBy(settings, req.login) != Some(name) {
        LastIsOne(req.attributes, name, a[name], a'[name]);
      }
    }
    assert a == a';
  }

  /** An administrator creates a user who must change the given password; an invitation needs an email. */
  lemma {:induction false} UserCreated(w: World, now: nat, c: Cmd) returns (u: User)
    requires c.AdminCreateUser?
    ensures c.pool in w.db.pools ==>
              IsNewUser(u, w.next, c.pool, w.db.pools[c.pool], NewUser(c.login, c.attrs, Some(c.password), FORCE_CHANGE_PASSWORD))
    ensures Outcome(w, Step(w, now, c),
                    && c.pool in w.db.pools && c.conforms && !c.taken
                    && LoginFits(w.db.pools[c.pool], c.login) && Free(w.db, w.db.pools[c.pool], u)
                    && (c.invite ==> EMAIL in u.attributes),
                    Done, w.db.(users := w.db.users[u.key := u]))
  {
    hide Step;
    hide CreateUser;
    hide IsNewUser;
    hide Free;
    hide LoginFits;
    AdminStep(w, now, c);
    if c.pool in w.db.pools {
      var req := NewUser(c.login, c.attrs, Some(c.password), FORCE_CHANGE_PASSWORD);
      u := RegistrationExactly(w.db, w.next, c.pool, w.db.pools[c.pool], req, c.taken);
      CommitOne(w, UserSaved(u));
    } else {
      u := User(UserKey(0, Login("")), 0, map[], None, UNCONFIRMED, true, 0);
    }
  }

  predicate SelfSignUp(db: Tables, c: Id) {
    c in db.clients && db.clients[c].pool in db.pools && !db.pools[db.clients[c].pool].adminCreateOnly
  }

  /** A user signs up, unconfirmed, with a code to confirm by that lasts a day. */
  lemma {:induction false} SignedUp(w: World, now: nat, c: Cmd) returns (u: User)
    requires c.SignUp?
    ensures SelfSignUp(w.db, c.client) ==>
              var p := w.db.clients[c.client].pool;
              IsNewUser(u, w.next, p, w.db.pools[p], NewUser(c.login, c.attrs, Some(c.password), UNCONFIRMED))
    ensures Outcome(w, Step(w, now, c),
                    && SelfSignUp(w.db, c.client) && c.conforms && !c.taken
                    && var settings := w.db.pools[w.db.clients[c.client].pool];
                       LoginFits(settings, c.login) && Free(w.db, settings, u),
                    Done, w.db.(users := w.db.users[u.key := u],
                                verify := w.db.verify[VerifyKey(u.key, SignUpCode) := VerifyRow(c.code, now + 86400_000)]))
  {
    hide Step;
    hide CreateUser;
    hide IsNewUser;
    hide Free;
    hide LoginFits;
    ServiceStep(w, now, c);
    if SelfSignUp(w.db, c.client) {
      var p := w.db.clients[c.client].pool;
      var req := NewUser(c.login, c.attrs, Some(c.password), UNCONFIRMED);
      u := RegistrationExactly(w.db, w.next, p, w.db.pools[p], req, c.taken);
      CommitTwo(w, UserSaved(u), SetCode(now, u, SignUpCode, c.code).events[0]);
    } else {
      u := User(UserKey(0, Login("")), 0, map[], None, UNCONFIRMED, true, 0);
    }
  }

  // ---- Administration of a user ----

  /** The user is there, under its own key. */
  predicate There(db: Tables, k: UserKey) { k.pool in db.pools && k in db.users }

  /** Enabling and disabling set the flag; disabling ends the user's sessions too. */
  lemma {:induction false} EnabledSet(w: World, now: nat, k: UserKey, enable: bool)
    requires Reached(w)
    ensures var ok := There(w.db, k);
            Outcome(w, Step(w, now, AdminSetEnabled(k, enable)), ok, Done,
                    if !ok then w.db
                    else w.db.(users := w.db.users[k := w.db.users[k].(enabled := enable)],
                               sessions := map i | i in w.db.sessions && (enable || w.db.sessions[i].owner != k)
                                             :: w.db.sessions[i]))
  {
    hide Step;
    ReachedRows(w);
    AdminStep(w, now, AdminSetEnabled(k, enable));
    if There(w.db, k) {
      CommitOne(w, if enable then UserSaved(w.db.users[k].(enabled := true)) else UserDisabled(k));
      if enable {
        assert w.db.sessions == map i | i in w.db.sessions :: w.db.sessions[i];
      }
    }
  }

  lemma {:induction false} UserDeletedWhole(w: World, now: nat, k: UserKey)
    requires Reached(w)
    ensures Outcome(w, Step(w, now, AdminDeleteUser(k)), There(w.db, k), Done, WithoutOwners(w.db, OneUser(k)))
  {
    hide Step;
    hide Effect;
    hide WithoutOwners;
    ReachedRows(w);
    AdminStep(w, now, AdminDeleteUser(k));
    CommitOne(w, UserDeleted(k));
    UserPurged(w.db, k);
  }

  lemma {:induction false} UserPurged(db: Tables, k: UserKey)
    ensures Effect(db, UserDeleted(k)) == WithoutOwners(db, OneUser(k))
  {
    OwnersPurged(db, UserDeleted(k), OneUser(k));
  }

  /** The tables with one user's row replaced. */
  function WithUserRow(db: Tables, u: User): Tables { db.(users := db.users[u.key := u]) }

  lemma {:induction false} PasswordSet(w: World, now: nat, k: UserKey, pw: string, permanent: bool, conforms: bool)
    requires Reached(w)
    ensures var ok := There(w.db, k) && conforms;
            Outcome(w, Step(w, now, AdminSetPassword(k, pw, permanent, conforms)), ok, Done,
                    if !ok then w.db
                    else WithUserRow(w.db, w.db.users[k].(password := Some(pw),
                                                          status := if permanent then CONFIRMED else FORCE_CHANGE_PASSWORD)))
  {
    hide Step;
    ReachedRows(w);
    AdminStep(w, now, AdminSetPassword(k, pw, permanent, conforms));
    if There(w.db, k) && conforms {
      CommitOne(w, SetPassword(w.db.users[k], pw, permanent, conforms).events[0]);
    }
  }

  /** Signing a user out everywhere revokes its families and refresh tokens and ends its sessions, at this time. */
  function SignedOutAt(db: Tables, k: UserKey, now: int): Tables
    requires k in db.users
  {
    db.(users := db.users[k := db.users[k].(tokensValidAfter := now)],
        origins := map o | o in db.origins :: db.origins[o].(revoked := db.origins[o].revoked || db.origins[o].owner == k),
        refresh := map r | r in db.refresh :: db.refresh[r].(revoked := db.refresh[r].revoked || db.refresh[r].owner == k),
        sessions := map i | i in db.sessions && db.sessions[i].owner != k :: db.sessions[i])
  }

  lemma {:induction false} SignOutEffect(w: World, now: nat, k: UserKey)
    requires k in w.db.users
    ensures Commit(w, [SignedOut(k, now)]).db == SignedOutAt(w.db, k, now)
  {
    CommitOne(w, SignedOut(k, now));
  }

  lemma {:induction false} UserSignedOut(w: World, now: nat, k: UserKey)
    requires Reached(w)
    ensures var ok := There(w.db, k);
            Outcome(w, Step(w, now, AdminSignOut(k)), ok, Done, if ok then SignedOutAt(w.db, k, now) else w.db)
  {
    hide Step;
    ReachedRows(w);
    AdminStep(w, now, AdminSignOut(k));
    if There(w.db, k) {
      SignOutEffect(w, now, k);
    }
  }

  // ---- Attributes ----

  /** Some assignment differs from what the user had. */
  predicate Reassigned(u: User, attrs: seq<(string, string)>, name: string) {
    exists i :: 0 <= i < |attrs| && attrs[i].0 == name && u.Attribute(name) != Some(attrs[i].1)
  }

  /** A new address that is given without a word on whether it is verified is not. */
  predicate Unverified(u: User, attrs: seq<(string, string)>, name: string, keepEmail: bool, keepPhone: bool) {
    || (name == EMAIL_VERIFIED && !keepEmail && Reassigned(u, attrs, EMAIL))
    || (name == PHONE_VERIFIED && !keepPhone && Reassigned(u, attrs, PHONE))
  }

  /** What an update makes of one attribute. */
  ghost predicate AttributeAfter(u: User, u': User, attrs: seq<(string, string)>, name: string, keepEmail: bool,
                                 keepPhone: bool) {
    if !NotGiven(attrs, name) then name in u'.attributes && LastGiven(attrs, name, u'.attributes[name])
    else u'.Attribute(name) == if Unverified(u, attrs, name, keepEmail, keepPhone) then Some("false") else u.Attribute(name)
  }

  /** The user after an update: each attribute given is what was given last; an email or phone number that changed is
      unverified unless said otherwise; all else is as before. */
  ghost predicate Updated(u: User, u': User, attrs: seq<(string, string)>) {
    && u' == u.(attributes := u'.attributes)
    && forall name :: AttributeAfter(u, u', attrs, name, false, false)
  }

  lemma {:induction false} AssignOne(u: User, u': User, attrs: seq<(string, string)>, name: string, keepEmail: bool,
                                     keepPhone: bool)
    requires attrs != [] && (!NotGiven(attrs, EMAIL_VERIFIED) ==> keepEmail) && (!NotGiven(attrs, PHONE_VERIFIED) ==> keepPhone)
    requires AttributeAfter(SetAttribute(u, attrs[0].0, attrs[0].1, keepEmail, keepPhone), u', attrs[1..], name, keepEmail,
                            keepPhone)
    ensures AttributeAfter(u, u', attrs, name, keepEmail, keepPhone)
  {
    var (k, v) := attrs[0];
    var u1, rest := SetAttribute(u, k, v, keepEmail, keepPhone), attrs[1..];
    if !NotGiven(rest, name) {
      var i :| 0 <= i < |rest| && rest[i] == (name, u'.attributes[name]) && NotGiven(rest[i + 1..], name);
      assert attrs[i + 1] == (name, u'.attributes[name]) && attrs[i + 1 + 1..] == rest[i + 1..];
      assert LastGiven(attrs, name, u'.attributes[name]);
    } else if k == name {
      assert attrs[0] == (name, v) && NotGiven(attrs[0 + 1..], name);
      assert LastGiven(attrs, name, v);
    } else {
      assert NotGiven(attrs, name);
      ReassignedSplit(u, attrs, EMAIL, u1);
      ReassignedSplit(u, attrs, PHONE, u1);
    }
  }

  /** Whether an address changes shows at its first assignment or behind it. */
  lemma {:induction false} ReassignedSplit(u: User, attrs: seq<(string, string)>, name: string, u1: User)
    requires attrs != []
    requires u1.Attribute(name) == if attrs[0].0 == name then Some(attrs[0].1) else u.Attribute(name)
    ensures var here := attrs[0].0 == name && u.Attribute(name) != Some(attrs[0].1);
            && (here ==> Reassigned(u, attrs, name))
            && (!here ==> (Reassigned(u, attrs, name) <==> Reassigned(u1, attrs[1..], name)))
  {
    if i :| 0 <= i < |attrs| && attrs[i].0 == name && u.Attribute(name) != Some(attrs[i].1) {
      if i > 0 {
        assert attrs[1..][i - 1] == attrs[i];
      }
    }
    if i :| 0 <= i < |attrs[1..]| && attrs[1..][i].0 == name && u1.Attribute(name) != Some(attrs[1..][i].1) {
      assert attrs[i + 1] == attrs[1..][i];
    }
  }

  lemma {:induction false} AssignedNone(u: User, keepEmail: bool, keepPhone: bool)
    ensures forall name :: AttributeAfter(u, u, [], name, keepEmail, keepPhone)
  {
  }

  lemma {:induction false} AssignedAll(db: Tables, settings: Pool, u: User, attrs: seq<(string, string)>, keepEmail: bool,
                                       keepPhone: bool)
    requires (!NotGiven(attrs, EMAIL_VERIFIED) ==> keepEmail) && (!NotGiven(attrs, PHONE_VERIFIED) ==> keepPhone)
    ensures var t := AssignAll(db, settings, u, attrs, keepEmail, keepPhone);
            t.Ok? ==>
              && t.value == u.(attributes := t.value.attributes)
              && forall name :: AttributeAfter(u, t.value, attrs, name, keepEmail, keepPhone)
    decreases |attrs|
  {
    hide AttributeAfter;
    hide EmailTaken;
    var t := AssignAll(db, settings, u, attrs, keepEmail, keepPhone);
    if t.Ok? {
      if attrs == [] {
        AssignedNone(u, keepEmail, keepPhone);
      } else {
        var u1 := SetAttribute(u, attrs[0].0, attrs[0].1, keepEmail, keepPhone);
        AssignedAll(db, settings, u1, attrs[1..], keepEmail, keepPhone);
        forall name ensures AttributeAfter(u, t.value, attrs, name, keepEmail, keepPhone) {
          AssignOne(u, t.value, attrs, name, keepEmail, keepPhone);
        }
      }
    }
  }

  lemma {:induction false} UpdatedBy(db: Tables, settings: Pool, u: User, attrs: seq<(string, string)>)
    ensures var t := UpdateAttributes(db, settings, u, attrs);
            && (t.Ok? <==> Assignable(db, settings, u.key, attrs))
            && (t.Ok? ==> Updated(u, t.value, attrs) && t.events == [UserSaved(t.value)])
  {
    hide EmailTaken;
    hide AttributeAfter;
    hide SetAttribute;
    var keepEmail, keepPhone := Names(attrs, EMAIL_VERIFIED), Names(attrs, PHONE_VERIFIED);
    assert keepEmail <==> !NotGiven(attrs, EMAIL_VERIFIED);
    assert keepPhone <==> !NotGiven(attrs, PHONE_VERIFIED);
    AssignAllExactly(db, settings, u, attrs, keepEmail, keepPhone);
    AssignedAll(db, settings, u, attrs, keepEmail, keepPhone);
    var t := UpdateAttributes(db, settings, u, attrs);
    if t.Ok? {
      forall name
        ensures AttributeAfter(u, t.value, attrs, name, false, false)
      {
        FlagsForget(u, t.value, attrs, name, keepEmail, keepPhone);
      }
    }
  }

  lemma {:induction false} FlagsForget(u: User, u': User, attrs: seq<(string, string)>, name: string, keepEmail: bool,
                                       keepPhone: bool)
    requires AttributeAfter(u, u', attrs, name, keepEmail, keepPhone)
    requires (keepEmail <==> !NotGiven(attrs, EMAIL_VERIFIED)) && (keepPhone <==> !NotGiven(attrs, PHONE_VERIFIED))
    ensures AttributeAfter(u, u', attrs, name, false, false)
  {
  }

  /** What is said of an updated user pins it. */
  lemma {:induction false} UpdatedIsOne(u: User, u1: User, u2: User, attrs: seq<(string, string)>)
    requires Updated(u, u1, attrs) && Updated(u, u2, attrs)
    ensures u1 == u2
  {
    forall name
      ensures u1.Attribute(name) == u2.Attribute(name)
    {
      assert AttributeAfter(u, u1, attrs, name, false, false) && AttributeAfter(u, u2, attrs, name, false, false);
      if !NotGiven(attrs, name) {
        LastIsOne(attrs, name, u1.attributes[name], u2.attributes[name]);
      }
    }
    SameAttributes(u1, u2);
    assert u1 == u.(attributes := u1.attributes) && u2 == u.(attributes := u2.attributes);
  }

  lemma {:induction false} SameAttributes(u1: User, u2: User)
    requires forall name :: u1.Attribute(name) == u2.Attribute(name)
    ensures u1.attributes == u2.attributes
  {
    var a1, a2 := u1.attributes, u2.attributes;
    forall name
      ensures name in a1 <==> name in a2
      ensures name in a1 ==> a1[name] == a2[name]
    {
      assert u1.Attribute(name) == u2.Attribute(name);
    }
    assert a1 == a2;
  }

  lemma {:induction false} AttributesUpdated(w: World, now: nat, k: UserKey, attrs: seq<(string, string)>) returns (u: User)
    requires Reached(w)
    ensures There(w.db, k) && Assignable(w.db, w.db.pools[k.pool], k, attrs) ==> Updated(w.db.users[k], u, attrs)
    ensures Outcome(w, Step(w, now, AdminUpdateAttributes(k, attrs)),
                    There(w.db, k) && Assignable(w.db, w.db.pools[k.pool], k, attrs), Done, WithUserRow(w.db, u))
  {
    hide Step;
    hide Assignable;
    hide Updated;
    hide UpdateAttributes;
    ReachedRows(w);
    AdminStep(w, now, AdminUpdateAttributes(k, attrs));
    if There(w.db, k) {
      var t := UpdateAttributes(w.db, w.db.pools[k.pool], w.db.users[k], attrs);
      UpdatedBy(w.db, w.db.pools[k.pool], w.db.users[k], attrs);
      if t.Ok? {
        u := t.value;
        CommitOne(w, UserSaved(u));
      } else {
        u := w.db.users[k];
      }
    } else {
      u := User(k, 0, map[], None, UNCONFIRMED, true, 0);
    }
  }

  /** Deleting attributes takes exactly those named, and never the sub. */
  lemma {:induction false} AttributesDeleted(w: World, now: nat, k: UserKey, names: seq<string>)
    requires Reached(w)
    ensures var ok := There(w.db, k) && SUB !in names;
            Outcome(w, Step(w, now, AdminDeleteAttributes(k, names)), ok, Done,
                    if !ok then w.db
                    else var a := w.db.users[k].attributes;
                         WithUserRow(w.db, w.db.users[k].(attributes := map n | n in a && n !in names :: a[n])))
  {
    hide Step;
    ReachedRows(w);
    AdminStep(w, now, AdminDeleteAttributes(k, names));
    if There(w.db, k) && SUB !in names {
      var a := w.db.users[k].attributes;
      assert a - (set n | n in names) == map n | n in a && n !in names :: a[n];
      CommitOne(w, UserSaved(w.db.users[k].(attributes := map n | n in a && n !in names :: a[n])));
    }
  }

  // ---- Confirmation ----

  lemma {:induction false} SaveEffect(db: Tables, u: User)
    ensures Effect(db, UserSaved(u)) == WithUserRow(db, u)
  {
  }

  /** The user confirmed: an email is verified with it where the pool says so. */
  function Confirmed(settings: Pool, u: User): User {
    u.(status := CONFIRMED,
       attributes := if EMAIL in settings.autoVerified && EMAIL in u.attributes
                     then u.attributes[EMAIL_VERIFIED := "true"] else u.attributes)
  }

  lemma {:induction false} UserConfirmed(w: World, now: nat, k: UserKey)
    requires Reached(w)
    ensures var ok := There(w.db, k) && w.db.users[k].status == UNCONFIRMED;
            Outcome(w, Step(w, now, AdminConfirm(k)), ok, Done,
                    if ok then WithUserRow(w.db, Confirmed(w.db.pools[k.pool], w.db.users[k])) else w.db)
  {
    hide Step;
    hide Effect;
    ReachedRows(w);
    AdminStep(w, now, AdminConfirm(k));
    if There(w.db, k) {
      var u := Confirmed(w.db.pools[k.pool], w.db.users[k]);
      CommitOne(w, UserSaved(u));
      SaveEffect(w.db, u);
    }
  }

  /** The code presented, surrounding spaces aside, is the one on record and has not expired. */
  predicate CodeRight(db: Tables, now: nat, k: UserKey, kind: VerifyKind, code: string) {
    var v := VerifyKey(k, kind);
    v in db.verify && db.verify[v].code == Trim(code) && now <= db.verify[v].expiresAt
  }

  function WithoutCode(db: Tables, k: UserKey, kind: VerifyKind): Tables {
    db.(verify := map v | v in db.verify && v != VerifyKey(k, kind) :: db.verify[v])
  }

  lemma {:induction false} CodeDropped(db: Tables, k: UserKey, kind: VerifyKind)
    ensures Effect(db, VerifyUsed(VerifyKey(k, kind))) == WithoutCode(db, k, kind)
  {
    assert db.verify - {VerifyKey(k, kind)} == map v | v in db.verify && v != VerifyKey(k, kind) :: db.verify[v];
  }

  /** A new code of a kind in the place of the old one, for a day. */
  function WithCode(db: Tables, k: UserKey, kind: VerifyKind, code: string, now: int): Tables {
    db.(verify := db.verify[VerifyKey(k, kind) := VerifyRow(code, now + 86400_000)])
  }

  lemma {:induction false} CodeSet(db: Tables, now: nat, u: User, kind: VerifyKind, code: string)
    ensures var t := SetCode(now, u, kind, code);
            t.Ok? && |t.events| == 1 && Effect(db, t.events[0]) == WithCode(db, u.key, kind, code, now)
  {
  }

  /** The user an app's request names. */
  predicate Named(db: Tables, c: Id, k: UserKey) { ClientOf(db, c, k.pool) && There(db, k) }

  function NamedKey(db: Tables, c: Id, name: Username): UserKey {
    UserKey(if c in db.clients then db.clients[c].pool else 0, name)
  }

  lemma {:induction false} SignUpCodeExactly(db: Tables, now: nat, c: Cmd)
    requires c.ConfirmSignUp? && UsersFit(db)
    ensures var k, t := NamedKey(db, c.client, c.name), ConfirmSignUpTxn(db, now, c);
            && (t.Ok? <==> Named(db, c.client, k) && db.users[k].status == UNCONFIRMED
                           && CodeRight(db, now, k, SignUpCode, c.code))
            && (t.Ok? ==> t.value == Done && t.events == [VerifyUsed(VerifyKey(k, SignUpCode))]
                                                       + [UserSaved(Confirmed(db.pools[k.pool], db.users[k]))])
  {
    hide Trim;
  }

  /** A user confirms with the code, which is used up by it. */
  lemma {:induction false} SignUpConfirmed(w: World, now: nat, c: Cmd)
    requires Reached(w) && c.ConfirmSignUp?
    ensures var k := NamedKey(w.db, c.client, c.name);
            var ok := Named(w.db, c.client, k) && w.db.users[k].status == UNCONFIRMED
                      && CodeRight(w.db, now, k, SignUpCode, c.code);
            Outcome(w, Step(w, now, c), ok, Done,
                    if ok then WithUserRow(WithoutCode(w.db, k, SignUpCode), Confirmed(w.db.pools[k.pool], w.db.users[k]))
                    else w.db)
  {
    hide Step;
    hide Effect;
    hide ConfirmSignUpTxn;
    hide CodeRight;
    ReachedRows(w);
    ServiceStep(w, now, c);
    SignUpCodeExactly(w.db, now, c);
    var k := NamedKey(w.db, c.client, c.name);
    if ConfirmSignUpTxn(w.db, now, c).Ok? {
      var u := Confirmed(w.db.pools[k.pool], w.db.users[k]);
      CodeDropped(w.db, k, SignUpCode);
      CommitTwo(w, VerifyUsed(VerifyKey(k, SignUpCode)), UserSaved(u));
      SaveEffect(WithoutCode(w.db, k, SignUpCode), u);
    }
  }

  /** The app's client and pool are there, and so is the user, fit for a code of this kind; or the client hides users. */
  predicate MaySend(db: Tables, c: Cmd)
    requires c.SendCode?
  {
    var k := NamedKey(db, c.client, c.name);
    && c.client in db.clients && k.pool in db.pools
    && if k in db.users then db.users[k].enabled && (c.kind.SignUpCode? ==> db.users[k].status == UNCONFIRMED)
       else db.clients[c.client].hideUsers
  }

  lemma {:induction false} SendCodeExactly(db: Tables, now: nat, c: Cmd)
    requires c.SendCode? && UsersFit(db)
    ensures var k, t := NamedKey(db, c.client, c.name), SendCodeTxn(db, now, c);
            && (t.Ok? <==> MaySend(db, c))
            && (t.Ok? ==> t.value == Done)
            && (t.Ok? && k in db.users ==> t.events == SetCode(now, db.users[k], c.kind, c.code).events)
            && (t.Ok? && k !in db.users ==> t.events == [])
  {
  }

  /** A new code replaces the old one of its kind. A client that hides users answers for a missing one too, and writes
      nothing. */
  lemma {:induction false} CodeSent(w: World, now: nat, c: Cmd)
    requires Reached(w) && c.SendCode?
    ensures var k := NamedKey(w.db, c.client, c.name);
            Outcome(w, Step(w, now, c), MaySend(w.db, c), Done,
                    if k in w.db.users then WithCode(w.db, k, c.kind, c.code, now) else w.db)
  {
    hide Step;
    hide Effect;
    hide SetCode;
    hide MaySend;
    hide SendCodeTxn;
    ReachedRows(w);
    ServiceStep(w, now, c);
    SendCodeExactly(w.db, now, c);
    var k := NamedKey(w.db, c.client, c.name);
    if k in w.db.users {
      var t := SetCode(now, w.db.users[k], c.kind, c.code);
      CodeSet(w.db, now, w.db.users[k], c.kind, c.code);
      assert t.events == [t.events[0]];
      CommitOne(w, t.events[0]);
    } else {
      assert EffectAll(w.db, []) == w.db;
    }
  }

  /** The user with a new password, chosen with a code. */
  function Rescued(u: User, pw: string): User { u.(password := Some(pw), status := CONFIRMED) }

  function EmailVerified(u: User): User {
    if EMAIL in u.attributes then u.(attributes := u.attributes[EMAIL_VERIFIED := "true"]) else u
  }

  lemma {:induction false} ResetCodeExactly(db: Tables, now: nat, c: Cmd)
    requires c.ConfirmForgotPassword? && UsersFit(db)
    ensures var k, t := NamedKey(db, c.client, c.name), ConfirmForgotTxn(db, now, c);
            && (t.Ok? <==> Named(db, c.client, k) && CodeRight(db, now, k, ResetCode, c.code) && c.conforms)
            && (t.Ok? ==>
                  var u := Rescued(db.users[k], c.password);
                  t.value == Done
                  && t.events == [VerifyUsed(VerifyKey(k, ResetCode))] + [UserSaved(u)]
                                 + if EMAIL in u.attributes then [UserSaved(EmailVerified(u))] else [])
  {
    hide Trim;
  }

  /** A forgotten password is replaced with the code, which is used up by it; an email is verified with it. */
  lemma {:induction false} PasswordReset(w: World, now: nat, c: Cmd)
    requires Reached(w) && c.ConfirmForgotPassword?
    ensures var k := NamedKey(w.db, c.client, c.name);
            var ok := Named(w.db, c.client, k) && CodeRight(w.db, now, k, ResetCode, c.code) && c.conforms;
            Outcome(w, Step(w, now, c), ok, Done,
                    if ok then WithUserRow(WithoutCode(w.db, k, ResetCode), EmailVerified(Rescued(w.db.users[k], c.password)))
                    else w.db)
  {
    hide Step;
    hide Effect;
    hide ConfirmForgotTxn;
    hide CodeRight;
    ReachedRows(w);
    ServiceStep(w, now, c);
    ResetCodeExactly(w.db, now, c);
    var k := NamedKey(w.db, c.client, c.name);
    if ConfirmForgotTxn(w.db, now, c).Ok? {
      ResetEffect(w.db, k, Rescued(w.db.users[k], c.password));
    }
  }

  lemma {:induction false} ResetEffect(db: Tables, k: UserKey, u: User)
    requires u.key == k
    ensures EffectAll(db, [VerifyUsed(VerifyKey(k, ResetCode))] + [UserSaved(u)]
                          + if EMAIL in u.attributes then [UserSaved(EmailVerified(u))] else [])
         == WithUserRow(WithoutCode(db, k, ResetCode), EmailVerified(u))
  {
    hide Effect;
    var used, u' := VerifyUsed(VerifyKey(k, ResetCode)), EmailVerified(u);
    var db1 := WithUserRow(WithoutCode(db, k, ResetCode), u);
    CodeDropped(db, k, ResetCode);
    EffectTwo(db, used, UserSaved(u));
    SaveEffect(WithoutCode(db, k, ResetCode), u);
    var more := if EMAIL in u.attributes then [UserSaved(u')] else [];
    EffectConcat(db, [used] + [UserSaved(u)], more);
    if EMAIL in u.attributes {
      SaveEffect(db1, u');
      EffectOne(db1, UserSaved(u'));
    }
  }

  /** An administrator's reset makes the user choose anew, unless still unconfirmed, and sends a code. */
  lemma {:induction false} ResetByAdmin(w: World, now: nat, k: UserKey, code: string)
    requires Reached(w)
    ensures var ok := There(w.db, k) && w.db.users[k].enabled;
            Outcome(w, Step(w, now, AdminResetPassword(k, code)), ok, Done,
                    if !ok then w.db
                    else var u := w.db.users[k];
                         WithCode(WithUserRow(w.db, if u.status == UNCONFIRMED then u else u.(status := RESET_REQUIRED)),
                                  k, ResetCode, code, now))
  {
    hide Step;
    hide Effect;
    hide SetCode;
    ReachedRows(w);
    AdminStep(w, now, AdminResetPassword(k, code));
    if There(w.db, k) && w.db.users[k].enabled {
      var u := w.db.users[k].(status := if w.db.users[k].status == UNCONFIRMED then UNCONFIRMED else RESET_REQUIRED);
      var t := SetCode(now, u, ResetCode, code);
      SaveEffect(w.db, u);
      CodeSet(WithUserRow(w.db, u), now, u, ResetCode, code);
      assert t.events == [t.events[0]];
      CommitTwo(w, UserSaved(u), t.events[0]);
    }
  }

  // ---- Requests by access token ----

  /** The token is accepted now, and lets its user manage itself. */
  predicate Admitted(w: World, t: Token, now: nat) {
    && Minted(t) in w.log && t.Access? && now / 1000 <= t.exp
    && There(w.db, t.owner) && w.db.users[t.owner].enabled
    && t.origin in w.db.origins && !w.db.origins[t.origin].revoked
    && ADMIN_SCOPE in Words(t.scope)
  }

  lemma {:induction false} AccessUserExactly(w: World, t: Token, now: nat)
    ensures var r := AccessUser(w.db, Minted(t) in w.log, t, now);
            && (r.Ok? <==> Admitted(w, t, now))
            && (r.Ok? ==> r.value == w.db.users[t.owner])
  {
    hide Words;
  }

  lemma {:induction false} UserTold(w: World, now: nat, t: Token)
    ensures var ok := Admitted(w, t, now);
            Outcome(w, Step(w, now, GetUserByToken(t)), ok, if ok then UserReply(w.db.users[t.owner]) else Done, w.db)
  {
    hide Step;
    hide AccessUser;
    hide Words;
    AccessUserExactly(w, t, now);
    ServiceStep(w, now, GetUserByToken(t));
    assert EffectAll(w.db, []) == w.db;
  }

  lemma {:induction false} BearerSignedOut(w: World, now: nat, t: Token)
    requires Reached(w)
    ensures var ok := Admitted(w, t, now);
            Outcome(w, Step(w, now, SignOutByToken(t)), ok, Done, if ok then SignedOutAt(w.db, t.owner, now) else w.db)
  {
    hide Step;
    hide AccessUser;
    hide Words;
    hide Effect;
    ReachedRows(w);
    AccessUserExactly(w, t, now);
    ServiceStep(w, now, SignOutByToken(t));
    if Admitted(w, t, now) {
      SignOutEffect(w, now, t.owner);
    }
  }

  lemma {:induction false} PasswordChanged(w: World, now: nat, t: Token, previous: string, pw: string, conforms: bool)
    requires Reached(w)
    ensures var ok := Admitted(w, t, now) && w.db.users[t.owner].password == Some(previous) && conforms;
            Outcome(w, Step(w, now, ChangePassword(t, previous, pw, conforms)), ok, Done,
                    if ok then WithUserRow(w.db, w.db.users[t.owner].(password := Some(pw), status := CONFIRMED)) else w.db)
  {
    hide Step;
    hide AccessUser;
    hide Words;
    hide Effect;
    ReachedRows(w);
    AccessUserExactly(w, t, now);
    ServiceStep(w, now, ChangePassword(t, previous, pw, conforms));
    if Admitted(w, t, now) {
      var u := w.db.users[t.owner].(password := Some(pw), status := CONFIRMED);
      CommitOne(w, UserSaved(u));
      SaveEffect(w.db, u);
    }
  }

  // ---- Logout and revocation ----

  /** Logging out ends that session and nothing else. */
  lemma {:induction false} LoggedOut(w: World, now: nat, session: Id)
    ensures Outcome(w, Step(w, now, Logout(session)), true, Done,
                    w.db.(sessions := map i | i in w.db.sessions && i != session :: w.db.sessions[i]))
  {
    hide Step;
    ServiceStep(w, now, Logout(session));
    CommitOne(w, SessionEnded(session));
    assert w.db.sessions - {session} == map i | i in w.db.sessions && i != session :: w.db.sessions[i];
  }

  /** A refresh token and its family revoked; an unknown one changes nothing. */
  function Revoked(db: Tables, r: Id): Tables {
    if r !in db.refresh then db
    else
      var o := db.refresh[r].origin;
      db.(refresh := db.refresh[r := db.refresh[r].(revoked := true)],
          origins := if o in db.origins then db.origins[o := db.origins[o].(revoked := true)] else db.origins)
  }

  /** The token is unknown, or the client's own. */
  predicate NotForeign(db: Tables, r: Id, c: Id) { r in db.refresh ==> db.refresh[r].client == c }

  lemma {:induction false} RevokeEffect(db: Tables, client: Client, r: Id)
    ensures var t := RevokeRefresh(db, client, r);
            && (t.Ok? <==> NotForeign(db, r, client.id))
            && (t.Ok? ==> EffectAll(db, t.events) == Revoked(db, r))
  {
    if r in db.refresh {
      EffectOne(db, RefreshRevoked(r));
    }
  }

  /** A client's secret is right: it has none, or this one. */
  predicate SecretRight(client: Client, secret: Option<string>) { client.secret.None? || secret == client.secret }

  /** REVOKE by API: answered exactly if the client is there, its secret is right and the token is not another client's;
      then token and family are revoked, and nothing else changes. */
  lemma {:induction false} TokenRevoked(w: World, now: nat, c: Id, secret: Option<string>, r: Id)
    requires Reached(w)
    ensures Outcome(w, Step(w, now, RevokeToken(c, secret, r)),
                    c in w.db.clients && SecretRight(w.db.clients[c], secret) && NotForeign(w.db, r, c), Done,
                    Revoked(w.db, r))
  {
    hide Step;
    hide Effect;
    hide RevokeRefresh;
    hide Revoked;
    ReachedRows(w);
    ServiceStep(w, now, RevokeToken(c, secret, r));
    if c in w.db.clients {
      RevokeEffect(w.db, w.db.clients[c], r);
    }
  }

  lemma {:induction false} ProcStep(w: World, now: nat, c: Cmd)
    requires !IsApi(c) && !c.Prepare? && !c.ClientAuth? && c.proc in w.procs
    ensures var h := ProcHop(w.db, w.next, now, w.procs[c.proc], c);
            Step(w, now, c) == (Land(w, c.proc, h), AnswerTo(h.txn))
  {
    hide ApiTxn;
    hide EntryHop;
    hide ProcHop;
  }

  lemma {:induction false} NoSuchRequest(w: World, now: nat, c: Cmd)
    requires !IsApi(c) && !c.Prepare? && !c.ClientAuth? && c.proc !in w.procs
    ensures Step(w, now, c) == (w, Failed(InvalidRequest)) && w.log + [] == w.log
  {
    hide ApiTxn;
    hide EntryHop;
    hide ProcHop;
  }

  /** REVOKE at the token endpoint, by an authenticated client. */
  lemma {:induction false} RevokedAtEndpoint(w: World, now: nat, pid: Id, client: Client, r: Id)
    requires pid in w.procs && w.procs[pid] == ClientReady(client)
    ensures Outcome(w, Step(w, now, Revoke(pid, r)), NotForeign(w.db, r, client.id), Done, Revoked(w.db, r))
  {
    hide Step;
    hide Effect;
    hide RevokeRefresh;
    hide Revoked;
    ProcStep(w, now, Revoke(pid, r));
    RevokeEffect(w.db, client, r);
  }
}
