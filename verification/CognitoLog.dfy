/** The rules every committed event obeys, given the history before it, and what a history
    that obeys them guarantees about the tables. */
module CognitoLog {
  import opened Options
  import opened Text
  import opened CognitoTables
  import opened CognitoGrants
  import opened CognitoService

  ghost predicate KnownClient(log: seq<Event>, c: Id, p: Id) {
    exists j :: 0 <= j < |log| && IsClient(log[j], c, p)
  }

  predicate IsClient(e: Event, c: Id, p: Id) {
    e.ClientSaved? && e.client.id == c && e.client.pool == p
  }

  /** No other user of the pool has this user's email, when the pool signs users in by email. */
  predicate EmailFree(db: Tables, u: User) {
    u.key.pool in db.pools && db.pools[u.key.pool].EmailIsUsername() && EMAIL in u.attributes ==>
      !EmailTaken(db, u.key.pool, u.attributes[EMAIL], Some(u.key.name))
  }

  /** The request fits the client as stored. */
  predicate ApprovalFits(db: Tables, a: Approval) {
    && a.client.id in db.clients && db.clients[a.client.id] == a.client
    && a.redirectUri in a.client.callbacks
    && a.scopes != [] && (forall i :: 0 <= i < |a.scopes| ==> a.scopes[i] in a.client.scopes)
  }

  function FamilyGrant(e: Event): Grant
    requires e.FamilyStarted?
  {
    Family(e.origin, e.owner, e.clientId, TokenOf(e.grant))
  }

  /** The access or identity token belongs to the family and carries its authentication time and, if it is an access
      token, its scopes. */
  predicate FamilyOf(e: Event, t: Token) {
    && e.FamilyStarted? && !t.ClientAccess?
    && e.origin == t.origin && e.owner == t.owner && e.clientId == t.client
    && t.authTime == e.authTime && (t.Access? ==> Words(t.scope) == Words(e.scope))
  }

  /** The user with this key is stored, and is the one with this sub. */
  predicate Stored(db: Tables, k: UserKey, sub: Id) {
    k in db.users && db.users[k].sub == sub
  }

  predicate SavedWith(e: Event, sub: Id) { e.UserSaved? && e.user.sub == sub }

  /** Some user was saved with this sub. */
  ghost predicate SubKnown(log: seq<Event>, sub: Id) {
    exists e :: e in log && SavedWith(e, sub)
  }

  /** The token is of the family while the family is live, and for the user stored under its name; only the implicit
      flow issues for the user a login read earlier. */
  predicate Vouches(db: Tables, e: Event, t: Token) {
    FamilyOf(e, t) && Live(db, FamilyGrant(e)) && (e.source.FromImplicit? || Stored(db, t.owner, t.sub))
  }

  /** The code row records the approval. */
  predicate Records(e: Event, row: CodeRow) {
    && e.Approved? && !e.approval.implicit
    && row.client == e.approval.client.id && row.owner.pool == e.approval.client.pool
    && row.redirectUri == e.approval.redirectUri && row.scope == Join(e.approval.scopes)
    && row.challenge == e.approval.challenge && row.challengeMethod == e.approval.challengeMethod
    && row.nonce == e.approval.nonce
  }

  /** The family is what an unused code, consumed by the event just before, entitles to. */
  ghost predicate Redeems(log: seq<Event>, e: Event)
    requires e.FamilyStarted? && e.source.FromCode?
  {
    && log != [] && log[|log| - 1] == CodeTaken(e.source.code)
    && var codes := Replay(log[..|log| - 1]).codes;
    && e.source.code in codes
    && var row := codes[e.source.code];
    && !row.used && row.owner == e.owner && row.client == e.clientId
    && row.authTime == e.authTime && Words(row.scope) == Words(e.scope)
  }

  ghost predicate Rule(log: seq<Event>, e: Event) {
    var db := Replay(log);
    match e
    case PoolSaved(p, settings) => p in db.pools ==> settings.usernameAttributes == db.pools[p].usernameAttributes
    case ClientSaved(c) =>
      forall i :: 0 <= i < |log| ==> SamePool(log[i], e)
    case UserSaved(u) =>
      && u.key.pool in db.pools && EmailFree(db, u)
      && (if u.key in db.users then Stored(db, u.key, u.sub) else !SubKnown(log, u.sub))
    case Approved(a) => ApprovalFits(db, a)
    case FamilyStarted(_, k, c, _, _, _, source) =>
      KnownClient(log, c, k.pool) && (source.FromCode? ==> Redeems(log, e))
    case Minted(t) =>
      !t.ClientAccess? ==> SubKnown(log, t.sub) && exists j :: 0 <= j < |log| && Vouches(db, log[j], t)
    case SessionStarted(_, at, row) => row.expiresAt == at + SESSION_TTL
    case CodeIssued(_, at, row) =>
      !row.used && row.expiresAt == at + CODE_TTL && exists j :: 0 <= j < |log| && Records(log[j], row)
    case CodeTaken(i) => i in db.codes
    case ChallengeTaken(i) => i in db.challenges
    case VerifyUsed(v) => v in db.verify
    case _ => true
  }

  ghost predicate Sound(log: seq<Event>, e: Event) {
    Orderly(log, e) && Rule(log, e)
  }

  /** The event at position `i` was sound when it was committed. */
  ghost predicate SoundHere(log: seq<Event>, i: nat)
    requires i < |log|
  {
    Sound(log[..i], log[i])
  }

  ghost predicate SoundLog(log: seq<Event>) {
    forall i: nat {:trigger SoundHere(log, i)} :: i < |log| ==> SoundHere(log, i)
  }

  lemma {:induction false} SoundPrefix(log: seq<Event>, n: nat)
    requires SoundLog(log) && n <= |log|
    ensures SoundLog(log[..n])
  {
    forall i: nat | i < n ensures SoundHere(log[..n], i) {
      assert log[..n][..i] == log[..i];
      assert SoundHere(log, i);
    }
  }

  lemma {:induction false} SoundSnoc(log: seq<Event>, e: Event)
    requires SoundLog(log) && Sound(log, e)
    ensures SoundLog(log + [e])
  {
    var log' := log + [e];
    forall i: nat | i < |log'| ensures SoundHere(log', i) {
      assert log'[..i] == log[..i];
      if i < |log| {
        assert SoundHere(log, i);
      } else {
        assert log[..i] == log;
      }
    }
  }

  lemma {:induction false} SoundIsOrderly(log: seq<Event>)
    requires SoundLog(log)
    ensures OrderlyLog(log)
  {
    if log != [] {
      SoundPrefix(log, |log| - 1);
      SoundIsOrderly(log[..|log| - 1]);
      assert SoundHere(log, |log| - 1);
    }
  }

  // ---- What a sound history guarantees ----

  /** Users sit under their own key, in a pool that exists. */
  predicate UsersFit(db: Tables) {
    forall k :: k in db.users ==> db.users[k].key == k && k.pool in db.pools
  }

  predicate EmailsFree(db: Tables) {
    forall k :: k in db.users ==> EmailFree(db, db.users[k])
  }

  ghost predicate SubsKnown(db: Tables, log: seq<Event>) {
    forall k :: k in db.users ==> SubKnown(log, db.users[k].sub)
  }

  ghost predicate ClientsBorn(db: Tables, log: seq<Event>) {
    forall c :: c in db.clients ==>
      db.clients[c].id == c && exists j :: 0 <= j < |log| && log[j] == ClientSaved(db.clients[c])
  }

  predicate SamePool(e: Event, f: Event) {
    e.ClientSaved? && f.ClientSaved? && e.client.id == f.client.id ==> e.client.pool == f.client.pool
  }

  ghost predicate OnePoolPerClient(log: seq<Event>) {
    forall i, j :: 0 <= i < |log| && 0 <= j < |log| ==> SamePool(log[i], log[j])
  }

  predicate StartsCode(e: Event, i: Id, row: CodeRow) {
    e.CodeIssued? && e.id == i && e.code == row.(used := false)
  }

  ghost predicate CodesBorn(db: Tables, log: seq<Event>) {
    forall i :: i in db.codes ==> exists j :: 0 <= j < |log| && StartsCode(log[j], i, db.codes[i])
  }

  lemma {:induction false} UsersFitStep(db: Tables, e: Event)
    requires UsersFit(db)
    requires e.UserSaved? ==> e.user.key.pool in db.pools
    ensures UsersFit(Effect(db, e))
  {
  }

  lemma {:induction false} EmailsFreeStep(db: Tables, e: Event)
    requires UsersFit(db) && EmailsFree(db)
    requires e.UserSaved? ==> EmailFree(db, e.user)
    requires e.PoolSaved? && e.pool in db.pools ==> e.settings.usernameAttributes == db.pools[e.pool].usernameAttributes
    ensures EmailsFree(Effect(db, e))
  {
    hide ClientsAfter;
    hide CodesAfter;
    hide SessionsAfter;
    hide OriginsAfter;
    hide RefreshAfter;
    hide ChallengesAfter;
    hide VerifyAfter;
    hide Lower;
    var db' := Effect(db, e);
    forall k, k2 | k in db'.users && k2 in db'.users && k2.pool == k.pool && k2.name != k.name
                   && k.pool in db'.pools && db'.pools[k.pool].EmailIsUsername()
                   && EMAIL in db'.users[k].attributes
      ensures !HasEmail(db'.users[k2], db'.users[k].attributes[EMAIL])
    {
      EmailsDiffer(db, e, k, k2);
    }
  }

  /** Two users with different emails before the event have different emails after it. */
  lemma {:induction false} EmailsDiffer(db: Tables, e: Event, k: UserKey, k2: UserKey)
    requires UsersFit(db) && EmailsFree(db)
    requires e.UserSaved? ==> EmailFree(db, e.user)
    requires e.PoolSaved? && e.pool in db.pools ==> e.settings.usernameAttributes == db.pools[e.pool].usernameAttributes
    requires k in Effect(db, e).users && k2 in Effect(db, e).users && k2.pool == k.pool && k2.name != k.name
    requires k.pool in Effect(db, e).pools && Effect(db, e).pools[k.pool].EmailIsUsername()
    requires EMAIL in Effect(db, e).users[k].attributes
    ensures !HasEmail(Effect(db, e).users[k2], Effect(db, e).users[k].attributes[EMAIL])
  {
    hide ClientsAfter;
    hide CodesAfter;
    hide SessionsAfter;
    hide OriginsAfter;
    hide RefreshAfter;
    hide ChallengesAfter;
    hide VerifyAfter;
    hide Lower;
    var u, u2 := Effect(db, e).users[k], Effect(db, e).users[k2];
    if e.UserSaved? && e.user.key == k {
      assert k2 in db.users && db.users[k2] == u2;
    } else if e.UserSaved? && e.user.key == k2 {
      assert k in db.users && db.users[k] == u;
    } else {
      assert k in db.users && db.users[k].attributes == u.attributes;
      assert k2 in db.users && db.users[k2].attributes == u2.attributes;
      assert EmailFree(db, db.users[k]);
    }
  }

  lemma {:induction false} SubsKnownStep(log: seq<Event>, e: Event)
    requires SubsKnown(Replay(log), log)
    ensures SubsKnown(Effect(Replay(log), e), log + [e])
  {
    hide PoolsAfter;
    hide ClientsAfter;
    hide CodesAfter;
    hide SessionsAfter;
    hide OriginsAfter;
    hide RefreshAfter;
    hide ChallengesAfter;
    hide VerifyAfter;
    var db, log' := Replay(log), log + [e];
    forall k | k in Effect(db, e).users
      ensures SubKnown(log', Effect(db, e).users[k].sub)
    {
      if e.UserSaved? && e.user.key == k {
        assert e in log' && SavedWith(e, e.user.sub);
      } else {
        var f :| f in log && SavedWith(f, db.users[k].sub);
        assert f in log';
      }
    }
  }

  lemma {:induction false} ClientsBornStep(log: seq<Event>, e: Event)
    requires ClientsBorn(Replay(log), log)
    ensures ClientsBorn(Effect(Replay(log), e), log + [e])
  {
    var db, log' := Replay(log), log + [e];
    var db' := Effect(db, e);
    forall c | c in db'.clients
      ensures db'.clients[c].id == c && exists j :: 0 <= j < |log'| && log'[j] == ClientSaved(db'.clients[c])
    {
      if e.ClientSaved? && e.client.id == c {
        assert log'[|log|] == ClientSaved(db'.clients[c]);
      } else {
        var j :| 0 <= j < |log| && log[j] == ClientSaved(db.clients[c]);
        assert log'[j] == log[j];
      }
    }
  }

  lemma {:induction false} CodesBornStep(log: seq<Event>, e: Event)
    requires CodesBorn(Replay(log), log)
    requires e.CodeIssued? ==> !e.code.used
    ensures CodesBorn(Effect(Replay(log), e), log + [e])
  {
    var db, log' := Replay(log), log + [e];
    var db' := Effect(db, e);
    forall i | i in db'.codes
      ensures exists j :: 0 <= j < |log'| && StartsCode(log'[j], i, db'.codes[i])
    {
      if e.CodeIssued? && e.id == i {
        assert StartsCode(log'[|log|], i, db'.codes[i]);
      } else {
        var j :| 0 <= j < |log| && StartsCode(log[j], i, db.codes[i]);
        assert StartsCode(log'[j], i, db'.codes[i]);
      }
    }
  }

  ghost predicate Facts(log: seq<Event>) {
    var db := Replay(log);
    && UsersFit(db) && EmailsFree(db) && SubsKnown(db, log)
    && ClientsBorn(db, log) && OnePoolPerClient(log) && CodesBorn(db, log)
  }

  lemma {:induction false} FactsStep(log: seq<Event>, e: Event)
    requires Facts(log) && Rule(log, e)
    ensures Facts(log + [e])
  {
    ReplayStep(log, e);
    var db := Replay(log);
    UsersFitStep(db, e);
    EmailsFreeStep(db, e);
    SubsKnownStep(log, e);
    ClientsBornStep(log, e);
    CodesBornStep(log, e);
  }

  lemma {:induction false} FactsHold(log: seq<Event>)
    requires SoundLog(log)
    ensures Facts(log)
  {
    if log != [] {
      var front, e := log[..|log| - 1], log[|log| - 1];
      SoundPrefix(log, |log| - 1);
      FactsHold(front);
      assert SoundHere(log, |log| - 1);
      FactsStep(front, e);
      assert front + [e] == log;
    }
  }
}
