/** Grants and their fate: which events give birth to a grant, which end it, and the theorem
    that the tables hold a grant as usable exactly while nothing has ended it. */
module CognitoGrants {
  import opened Options
  import opened CognitoTables

  datatype Grant =
    | Family(origin: Id, owner: UserKey, client: Id, refresh: Option<Id>)
    | Refresh(token: Id, origin: Id, owner: UserKey, client: Id)
    | Code(id: Id, owner: UserKey)
    | Session(id: Id, owner: UserKey)
    | Challenge(id: Id, owner: UserKey)

  function TokenOf(grant: Option<RefreshGrant>): Option<Id> {
    if grant.Some? then Some(grant.value.token) else None
  }

  /** The event creates the grant. */
  predicate Bears(e: Event, g: Grant) {
    match e
    case FamilyStarted(o, k, c, _, _, grant, _) =>
      || g == Family(o, k, c, TokenOf(grant))
      || (grant.Some? && g == Refresh(grant.value.token, o, k, c))
    case CodeIssued(i, _, row) => g == Code(i, row.owner) && !row.used
    case SessionStarted(i, _, row) => g == Session(i, row.owner)
    case ChallengeIssued(i, row) => g == Challenge(i, row.owner)
    case _ => false
  }

  /** The event ends the grant for good. */
  predicate Kills(e: Event, g: Grant) {
    || e == UserDeleted(g.owner)
    || e == PoolDeleted(g.owner.pool)
    || match g {
         case Family(_, k, _, r) =>
           (e.SignedOut? && e.owner == k) || (e.RefreshRevoked? && r == Some(e.id))
         case Refresh(r, _, k, c) =>
           (e.SignedOut? && e.owner == k) || e == RefreshRevoked(r) || e == ClientDeleted(c)
         case Code(i, _) => e == CodeTaken(i)
         case Session(i, k) =>
           (e.SignedOut? && e.owner == k) || e == SessionEnded(i) || e == UserDisabled(k)
         case Challenge(i, _) => e == ChallengeTaken(i)
       }
  }

  /** The tables still hold the grant as usable (expiry and the state of its user aside). */
  predicate Live(db: Tables, g: Grant) {
    match g
    case Family(o, k, c, _) => o in db.origins && db.origins[o] == OriginRow(k, c, false)
    case Refresh(r, o, k, c) =>
      && r in db.refresh && db.refresh[r].owner == k && db.refresh[r].client == c
      && db.refresh[r].origin == o && !db.refresh[r].revoked
      && o in db.origins && db.origins[o] == OriginRow(k, c, false)
    case Code(i, k) => i in db.codes && db.codes[i].owner == k && !db.codes[i].used
    case Session(i, k) => i in db.sessions && db.sessions[i].owner == k
    case Challenge(i, k) => i in db.challenges && db.challenges[i].owner == k
  }

  /** Identifiers an event brings into existence. */
  function NewIds(e: Event): set<Id> {
    match e
    case FamilyStarted(o, _, _, _, _, grant, _) => if grant.Some? then {o, grant.value.token} else {o}
    case CodeIssued(i, _, _) => {i}
    case SessionStarted(i, _, _) => {i}
    case ChallengeIssued(i, _) => {i}
    case Minted(t) => {t.jti}
    case _ => {}
  }

  ghost predicate Fresh(log: seq<Event>, id: Id) {
    forall i :: 0 <= i < |log| ==> id !in NewIds(log[i])
  }

  /** Generated identifiers are never reused, and only a stored refresh token is revoked. */
  ghost predicate Orderly(log: seq<Event>, e: Event) {
    && (forall id :: id in NewIds(e) ==> Fresh(log, id))
    && (e.FamilyStarted? && e.grant.Some? ==> e.grant.value.token != e.origin)
    && (e.RefreshRevoked? ==> e.id in Replay(log).refresh)
  }

  ghost predicate OrderlyLog(log: seq<Event>) {
    log == [] || (OrderlyLog(log[..|log| - 1]) && Orderly(log[..|log| - 1], log[|log| - 1]))
  }

  /** No event from position `from` on ends the grant. */
  ghost predicate Unharmed(log: seq<Event>, from: nat, g: Grant) {
    forall k :: from <= k < |log| ==> !Kills(log[k], g)
  }

  /** A refresh row belongs to the family that was started with it, and to no other;
      the family's own row keeps its owner and client. */
  ghost predicate Linked(db: Tables, e: Event) {
    e.FamilyStarted? ==>
      && (forall r :: r in db.refresh ==> (db.refresh[r].origin == e.origin <==> TokenOf(e.grant) == Some(r)))
      && (e.origin in db.origins ==> db.origins[e.origin].owner == e.owner && db.origins[e.origin].client == e.clientId)
  }

  ghost predicate AllLinked(db: Tables, log: seq<Event>) {
    forall i :: 0 <= i < |log| ==> Linked(db, log[i])
  }

  predicate StartsRefresh(e: Event, r: Id, row: RefreshRow) {
    e.FamilyStarted? && TokenOf(e.grant) == Some(r) && e.origin == row.origin && e.owner == row.owner
    && e.clientId == row.client && e.scope == row.scope && e.authTime == row.authTime
    && e.grant.value.expiresAt == row.expiresAt
  }

  /** Every refresh row was written by the start of a family. */
  ghost predicate RefreshBorn(db: Tables, log: seq<Event>) {
    forall r :: r in db.refresh ==> exists i :: 0 <= i < |log| && StartsRefresh(log[i], r, db.refresh[r])
  }

  lemma {:induction false} BirthIsLive(db: Tables, e: Event, g: Grant)
    requires Bears(e, g)
    ensures Live(Effect(db, e), g)
  {
  }

  lemma {:induction false} EffectOnFamily(db: Tables, e: Event, birth: Event, g: Grant)
    requires g.Family? && Bears(birth, g)
    requires NewIds(birth) !! NewIds(e)
    requires Linked(db, birth)
    requires e.RefreshRevoked? ==> e.id in db.refresh
    ensures Live(Effect(db, e), g) <==> Live(db, g) && !Kills(e, g)
  {
  }

  lemma {:induction false} EffectOnRefresh(db: Tables, e: Event, birth: Event, g: Grant)
    requires g.Refresh? && Bears(birth, g)
    requires NewIds(birth) !! NewIds(e)
    requires Linked(db, birth)
    requires e.RefreshRevoked? ==> e.id in db.refresh
    ensures Live(Effect(db, e), g) <==> Live(db, g) && !Kills(e, g)
  {
  }

  lemma {:induction false} EffectOnCode(db: Tables, e: Event, birth: Event, g: Grant)
    requires g.Code? && Bears(birth, g)
    requires NewIds(birth) !! NewIds(e)
    requires Linked(db, birth)
    requires e.RefreshRevoked? ==> e.id in db.refresh
    ensures Live(Effect(db, e), g) <==> Live(db, g) && !Kills(e, g)
  {
  }

  lemma {:induction false} EffectOnSession(db: Tables, e: Event, birth: Event, g: Grant)
    requires g.Session? && Bears(birth, g)
    requires NewIds(birth) !! NewIds(e)
    requires Linked(db, birth)
    requires e.RefreshRevoked? ==> e.id in db.refresh
    ensures Live(Effect(db, e), g) <==> Live(db, g) && !Kills(e, g)
  {
  }

  lemma {:induction false} EffectOnChallenge(db: Tables, e: Event, birth: Event, g: Grant)
    requires g.Challenge? && Bears(birth, g)
    requires NewIds(birth) !! NewIds(e)
    requires Linked(db, birth)
    requires e.RefreshRevoked? ==> e.id in db.refresh
    ensures Live(Effect(db, e), g) <==> Live(db, g) && !Kills(e, g)
  {
  }

  /** One event changes the usability of an older grant exactly if it kills it. */
  lemma {:induction false} EffectOnGrant(db: Tables, e: Event, birth: Event, g: Grant)
    requires Bears(birth, g)
    requires NewIds(birth) !! NewIds(e)
    requires Linked(db, birth)
    requires e.RefreshRevoked? ==> e.id in db.refresh
    ensures Live(Effect(db, e), g) <==> Live(db, g) && !Kills(e, g)
  {
    match g
    case Family(_, _, _, _) => EffectOnFamily(db, e, birth, g);
    case Refresh(_, _, _, _) => EffectOnRefresh(db, e, birth, g);
    case Code(_, _) => EffectOnCode(db, e, birth, g);
    case Session(_, _) => EffectOnSession(db, e, birth, g);
    case Challenge(_, _) => EffectOnChallenge(db, e, birth, g);
  }

  /** A step keeps the link between refresh rows and families. */
  lemma {:induction false} LinkKept(log: seq<Event>, e: Event)
    requires Orderly(log, e)
    requires AllLinked(Replay(log), log) && RefreshBorn(Replay(log), log)
    ensures AllLinked(Replay(log + [e]), log + [e]) && RefreshBorn(Replay(log + [e]), log + [e])
  {
    hide PoolsAfter;
    hide ClientsAfter;
    hide UsersAfter;
    hide CodesAfter;
    hide SessionsAfter;
    hide OriginsAfter;
    hide ChallengesAfter;
    hide VerifyAfter;
    hide Linked;
    var db, log' := Replay(log), log + [e];
    assert log'[..|log|] == log;
    var db' := Replay(log');
    assert db' == Effect(db, e);
    forall r | r in db'.refresh
      ensures exists i :: 0 <= i < |log'| && StartsRefresh(log'[i], r, db'.refresh[r])
    {
      if e.FamilyStarted? && TokenOf(e.grant) == Some(r) {
        assert StartsRefresh(log'[|log|], r, db'.refresh[r]);
      } else {
        var i :| 0 <= i < |log| && StartsRefresh(log[i], r, db.refresh[r]);
        assert StartsRefresh(log'[i], r, db'.refresh[r]);
      }
    }
    forall i | 0 <= i < |log'| ensures Linked(db', log'[i]) {
      LinkKeptAt(log, e, i);
    }
  }

  lemma {:induction false} LinkKeptAt(log: seq<Event>, e: Event, i: nat)
    requires Orderly(log, e) && i <= |log|
    requires AllLinked(Replay(log), log) && RefreshBorn(Replay(log), log)
    ensures Linked(Effect(Replay(log), e), (log + [e])[i])
  {
    var db := Replay(log);
    if i < |log| {
      LinkKeptOld(db, e, log[i]);
    } else {
      forall r | r in db.refresh
        ensures db.refresh[r].origin in OldIds(log) && r in OldIds(log)
      {
        var j :| 0 <= j < |log| && StartsRefresh(log[j], r, db.refresh[r]);
        assert r in NewIds(log[j]) && db.refresh[r].origin in NewIds(log[j]);
      }
      LinkNew(db, log, e);
    }
  }

  /** Identifiers already in use. */
  ghost function OldIds(log: seq<Event>): iset<Id> {
    iset id | !Fresh(log, id)
  }

  lemma {:induction false} LinkKeptOld(db: Tables, e: Event, b: Event)
    requires Linked(db, b) && NewIds(b) !! NewIds(e)
    ensures Linked(Effect(db, e), b)
  {
    if b.FamilyStarted? && e.FamilyStarted? {
      assert b.origin in NewIds(b) && e.origin in NewIds(e);
      assert b.grant.Some? ==> b.grant.value.token in NewIds(b);
      assert e.grant.Some? ==> e.grant.value.token in NewIds(e);
    }
  }

  lemma {:induction false} LinkNew(db: Tables, log: seq<Event>, e: Event)
    requires forall id :: id in NewIds(e) ==> Fresh(log, id)
    requires forall r :: r in db.refresh ==> db.refresh[r].origin in OldIds(log) && r in OldIds(log)
    ensures Linked(Effect(db, e), e)
  {
    if e.FamilyStarted? {
      assert e.origin in NewIds(e);
      assert e.grant.Some? ==> e.grant.value.token in NewIds(e);
    }
  }

  lemma {:induction false} OrderlyIsLinked(log: seq<Event>)
    requires OrderlyLog(log)
    ensures AllLinked(Replay(log), log) && RefreshBorn(Replay(log), log)
  {
    if log != [] {
      var front := log[..|log| - 1];
      OrderlyIsLinked(front);
      LinkKept(front, log[|log| - 1]);
      assert front + [log[|log| - 1]] == log;
    }
  }

  lemma {:induction false} ReplayStep(log: seq<Event>, e: Event)
    ensures Replay(log + [e]) == Effect(Replay(log), e)
  {
    assert (log + [e])[..|log|] == log;
  }

  lemma {:induction false} GrantFateStep(front: seq<Event>, e: Event, i: nat, g: Grant)
    requires OrderlyLog(front) && Orderly(front, e) && i < |front| && Bears(front[i], g)
    requires Live(Replay(front), g) <==> Unharmed(front, i + 1, g)
    ensures Live(Effect(Replay(front), e), g) <==> Unharmed(front + [e], i + 1, g)
  {
    OrderlyIsLinked(front);
    assert Linked(Replay(front), front[i]);
    EffectOnGrant(Replay(front), e, front[i], g);
    var log := front + [e];
    assert Unharmed(log, i + 1, g) ==> !Kills(log[|front|], g);
    assert Unharmed(log, i + 1, g) ==> Unharmed(front, i + 1, g) by {
      if Unharmed(log, i + 1, g) {
        forall k | i + 1 <= k < |front| ensures !Kills(front[k], g) {
          assert log[k] == front[k];
        }
      }
    }
  }

  /** HISTORY. In every orderly history a grant is usable exactly if nothing since its birth ended it. */
  lemma {:induction false} GrantFate(log: seq<Event>, i: nat, g: Grant)
    requires OrderlyLog(log) && i < |log| && Bears(log[i], g)
    ensures Live(Replay(log), g) <==> Unharmed(log, i + 1, g)
  {
    var front, e := log[..|log| - 1], log[|log| - 1];
    assert front + [e] == log;
    ReplayStep(front, e);
    if i == |front| {
      BirthIsLive(Replay(front), e, g);
    } else {
      GrantFate(front, i, g);
      GrantFateStep(front, e, i, g);
    }
  }
}
