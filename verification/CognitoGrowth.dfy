/** Every step of every run commits only events that obey the rules. */
module CognitoGrowth {
  import opened Options
  import opened Text
  import opened CognitoTables
  import opened CognitoGrants
  import opened CognitoService
  import opened CognitoLog
  import opened CognitoServer

  predicate BoundedEvent(e: Event, n: Id) {
    && (forall id :: id in NewIds(e) ==> id < n)
    && (e.ClientSaved? ==> e.client.id < n) && (e.UserSaved? ==> e.user.sub < n)
  }

  ghost predicate Bounded(log: seq<Event>, n: Id) {
    forall i :: 0 <= i < |log| ==> BoundedEvent(log[i], n)
  }

  ghost predicate Good(log: seq<Event>, next: Id) {
    SoundLog(log) && Bounded(log, next)
  }

  /** The history grows soundly by `es`, drawing identifiers from the step's own range. */
  ghost predicate Grows(log: seq<Event>, next: Id, es: seq<Event>) {
    Good(log + es, next + STRIDE)
  }

  predicate Draws(e: Event, next: Id) {
    && (forall id :: id in NewIds(e) ==> next <= id < next + STRIDE)
    && (e.FamilyStarted? && e.grant.Some? ==> e.grant.value.token != e.origin)
    && (e.ClientSaved? ==> e.client.id < next + STRIDE) && (e.UserSaved? ==> e.user.sub < next + STRIDE)
  }

  /** Known subs are below the next identifier, so a new user's is not among them. */
  lemma {:induction false} SubsBounded(log: seq<Event>, next: Id)
    requires Bounded(log, next)
    ensures forall sub: Id :: SubKnown(log, sub) ==> sub < next
  {
    forall sub: Id | SubKnown(log, sub)
      ensures sub < next
    {
      var e :| e in log && SavedWith(e, sub);
      var i :| 0 <= i < |log| && log[i] == e;
      assert BoundedEvent(log[i], next);
    }
  }

  lemma {:induction false} GrowNone(log: seq<Event>, next: Id)
    requires Good(log, next)
    ensures Grows(log, next, [])
  {
    assert log + [] == log;
  }

  lemma {:induction false} Grow(log: seq<Event>, next: Id, es: seq<Event>, e: Event)
    requires Good(log, next) && Grows(log, next, es)
    requires Rule(log + es, e) && Draws(e, next)
    requires forall i :: 0 <= i < |es| ==> NewIds(es[i]) !! NewIds(e)
    requires e.RefreshRevoked? ==> e.id in Replay(log + es).refresh
    ensures Grows(log, next, es + [e])
  {
    var log' := log + es;
    forall id | id in NewIds(e) ensures Fresh(log', id) {
      forall i | 0 <= i < |log'| ensures id !in NewIds(log'[i]) {
        if i < |log| {
          assert BoundedEvent(log[i], next);
        } else {
          assert log'[i] == es[i - |log|];
        }
      }
    }
    assert log + (es + [e]) == log' + [e];
    SoundSnoc(log', e);
  }

  lemma {:induction false} GrowOne(log: seq<Event>, next: Id, e: Event)
    requires Good(log, next)
    requires Rule(log, e) && Draws(e, next)
    requires e.RefreshRevoked? ==> e.id in Replay(log).refresh
    ensures Grows(log, next, [e])
  {
    GrowNone(log, next);
    assert log + [] == log && [] + [e] == [e];
    Grow(log, next, [], e);
  }

  /** Saving a user who keeps (or drops) the stored email is always sound. */
  lemma {:induction false} SameEmail(db: Tables, u: User)
    requires UsersFit(db) && EmailsFree(db) && u.key in db.users
    requires EMAIL in u.attributes ==> db.users[u.key].Attribute(EMAIL) == Some(u.attributes[EMAIL])
    ensures u.key.pool in db.pools && EmailFree(db, u)
  {
    assert EmailFree(db, db.users[u.key]);
  }

  // ---- Tokens ----

  /** The lineage an issue may use: a family the rules allow, or one that is still live. */
  ghost predicate LineageFits(log: seq<Event>, client: Client, u: User, opts: IssueOpts, next: Id) {
    && KnownClient(log, client.id, u.key.pool)
    && (opts.lineage == NewFamily(false, FromImplicit) || Stored(Replay(log), u.key, u.sub))
    && SubKnown(log, u.sub)
    && match opts.lineage {
         case SameFamily(o) =>
           exists j :: 0 <= j < |log| && log[j].FamilyStarted? && log[j].origin == o && log[j].owner == u.key
                       && log[j].clientId == client.id && log[j].authTime == opts.authTime
                       && Words(log[j].scope) == Words(Join(opts.scopes)) && Live(Replay(log), FamilyGrant(log[j]))
         case NewFamily(_, source) =>
           source.FromCode? ==>
             && log != [] && log[|log| - 1] == CodeTaken(source.code)
             && var codes := Replay(log[..|log| - 1]).codes;
             && source.code in codes
             && var row := codes[source.code];
             && !row.used && row.owner == u.key && row.client == client.id && row.authTime == opts.authTime
             && Words(row.scope) == Words(Join(opts.scopes))
       }
  }

  lemma {:induction false} KnownStill(log: seq<Event>, es: seq<Event>, sub: Id)
    requires SubKnown(log, sub)
    ensures SubKnown(log + es, sub)
  {
    var e :| e in log && SavedWith(e, sub);
    assert e in log + es;
  }

  ghost predicate NoIds(es: seq<Event>) {
    forall i :: 0 <= i < |es| ==> NewIds(es[i]) == {}
  }

  function IssueStart(next: Id, now: nat, client: Client, u: User, opts: IssueOpts): seq<Event> {
    var es := IssueTokens(next, now, client, u, opts).events;
    if opts.lineage.NewFamily? then [es[0]] else []
  }

  lemma {:induction false} IssueStartSound(log: seq<Event>, next: Id, now: nat, pre: seq<Event>,
                                           client: Client, u: User, opts: IssueOpts)
    requires Good(log, next) && Grows(log, next, pre) && NoIds(pre)
    requires LineageFits(log + pre, client, u, opts, next)
    ensures Grows(log, next, pre + IssueStart(next, now, client, u, opts))
    ensures var log' := log + (pre + IssueStart(next, now, client, u, opts));
            && Rule(log', Minted(IssueTokens(next, now, client, u, opts).value.access))
            && Rule(log', Minted(IdentityOf(next, now, client, u, opts)))
  {
    var t := IssueTokens(next, now, client, u, opts);
    var start := IssueStart(next, now, client, u, opts);
    if opts.lineage.NewFamily? {
      var e := start[0];
      Grow(log, next, pre, e);
      var log' := log + (pre + [e]);
      KnownStill(log + pre, [e], u.sub);
      assert log' == log + pre + [e];
      ReplayStep(log + pre, e);
      BirthIsLive(Replay(log + pre), e, FamilyGrant(e));
      assert Vouches(Replay(log'), log'[|log + pre|], t.value.access);
      assert Vouches(Replay(log'), log'[|log + pre|], IdentityOf(next, now, client, u, opts));
    } else {
      assert pre + [] == pre;
      var log' := log + pre;
      var j :| 0 <= j < |log'| && log'[j].FamilyStarted? && log'[j].origin == opts.lineage.origin
               && log'[j].owner == u.key && log'[j].clientId == client.id && log'[j].authTime == opts.authTime
               && Words(log'[j].scope) == Words(Join(opts.scopes)) && Live(Replay(log'), FamilyGrant(log'[j]));
      assert Vouches(Replay(log'), log'[j], t.value.access);
      assert Vouches(Replay(log'), log'[j], IdentityOf(next, now, client, u, opts));
    }
  }

  lemma {:induction false} GrowMinted(log: seq<Event>, next: Id, es: seq<Event>, t: Token)
    requires Good(log, next) && Grows(log, next, es)
    requires forall i :: 0 <= i < |es| ==> t.jti !in NewIds(es[i])
    requires next <= t.jti < next + STRIDE
    requires Rule(log + es, Minted(t))
    ensures Grows(log, next, es + [Minted(t)])
  {
    Grow(log, next, es, Minted(t));
  }

  function IdentityOf(next: Id, now: nat, client: Client, u: User, opts: IssueOpts): (t: Token)
    ensures t.Identity? && t.jti == next + 2
  {
    IssueTokens(next, now, client, u, opts.(identity := true)).value.identity.value
  }

  /** The events of one issue: the family if new, the access token, the identity token if asked for. */
  lemma {:induction false} IssueShape(next: Id, now: nat, client: Client, u: User, opts: IssueOpts)
    ensures var t := IssueTokens(next, now, client, u, opts);
            var start := IssueStart(next, now, client, u, opts);
            && t.events == start + [Minted(t.value.access)]
                           + (if opts.identity then [Minted(IdentityOf(next, now, client, u, opts))] else [])
            && t.value.access.jti == next + 1
            && forall i :: 0 <= i < |start| ==> NewIds(start[i]) <= {next, next + 3}
  {
  }

  lemma {:induction false} IssueTailSound(log: seq<Event>, next: Id, es: seq<Event>, access: Token, identity: Token)
    requires Good(log, next) && Grows(log, next, es)
    requires forall i :: 0 <= i < |es| ==> NewIds(es[i]) <= {next, next + 3}
    requires Rule(log + es, Minted(access)) && access.jti == next + 1
    requires Rule(log + es, Minted(identity)) && identity.jti == next + 2
    ensures Grows(log, next, es + [Minted(access)])
    ensures Grows(log, next, es + [Minted(access)] + [Minted(identity)])
  {
    hide Rule;
    hide Replay;
    hide SoundLog;
    GrowMinted(log, next, es, access);
    var es' := es + [Minted(access)];
    forall i | 0 <= i < |es'| ensures identity.jti !in NewIds(es'[i]) {
      if i < |es| {
        assert es'[i] == es[i];
      }
    }
    MintedAfter(log + es, access, identity);
    assert log + es' == log + es + [Minted(access)];
    GrowMinted(log, next, es', identity);
  }

  /** Minting one token does not stand in the way of minting another. */
  lemma {:induction false} MintedAfter(log: seq<Event>, t: Token, t': Token)
    requires Rule(log, Minted(t'))
    ensures Rule(log + [Minted(t)], Minted(t'))
  {
    ReplayStep(log, Minted(t));
    if !t'.ClientAccess? {
      KnownStill(log, [Minted(t)], t'.sub);
      var j :| 0 <= j < |log| && Vouches(Replay(log), log[j], t');
      assert Vouches(Replay(log + [Minted(t)]), (log + [Minted(t)])[j], t');
    }
  }

  lemma {:induction false} IssueSound(log: seq<Event>, next: Id, now: nat, pre: seq<Event>,
                                      client: Client, u: User, opts: IssueOpts)
    requires Good(log, next) && Grows(log, next, pre) && NoIds(pre)
    requires LineageFits(log + pre, client, u, opts, next)
    ensures Grows(log, next, pre + IssueTokens(next, now, client, u, opts).events)
  {
    IssueStartSound(log, next, now, pre, client, u, opts);
    IssueShape(next, now, client, u, opts);
    IssueFinish(log, next, pre, IssueStart(next, now, client, u, opts),
                IssueTokens(next, now, client, u, opts).value.access,
                IdentityOf(next, now, client, u, opts), opts.identity,
                IssueTokens(next, now, client, u, opts).events);
  }

  lemma {:induction false} IssueFinish(log: seq<Event>, next: Id, pre: seq<Event>, start: seq<Event>,
                                       access: Token, identity: Token, withIdentity: bool, events: seq<Event>)
    requires Good(log, next) && Grows(log, next, pre + start) && NoIds(pre)
    requires forall i :: 0 <= i < |start| ==> NewIds(start[i]) <= {next, next + 3}
    requires Rule(log + (pre + start), Minted(access)) && access.jti == next + 1
    requires Rule(log + (pre + start), Minted(identity)) && identity.jti == next + 2
    requires events == start + [Minted(access)] + (if withIdentity then [Minted(identity)] else [])
    ensures Grows(log, next, pre + events)
  {
    var es := pre + start;
    forall i | 0 <= i < |es| ensures NewIds(es[i]) <= {next, next + 3} {
      if i < |pre| {
        assert es[i] == pre[i];
      } else {
        assert es[i] == start[i - |pre|];
      }
    }
    IssueTailSound(log, next, es, access, identity);
    if withIdentity {
      assert pre + events == es + [Minted(access)] + [Minted(identity)];
    } else {
      assert pre + events == es + [Minted(access)];
    }
  }
}
