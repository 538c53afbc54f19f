/** When the order of a hash table shows in the value decoded from Query parameters. */
module QueryOrder {
  import opened Options
  import opened Text
  import opened Query
  import opened QueryTheorems

  /** The value decoded when the parameters are visited in this order. */
  function Decoded(params: map<string, string>, prefix: string, order: seq<string>): Json
    requires forall k :: k in order ==> k in params
  {
    Convert(Branch(Build(params, prefix, order)))
  }

  /** Every order gives the same value. */
  ghost predicate OrderFree(params: map<string, string>, prefix: string) {
    forall o, o' :: Visits(o, params.Keys) && Visits(o', params.Keys) ==>
      Decoded(params, prefix, o) == Decoded(params, prefix, o')
  }

  /** The key is a parameter below the prefix. */
  predicate Placed(params: map<string, string>, prefix: string, key: string) {
    key in params && PathOf(key, prefix).Some?
  }

  /** `q` is `p` with more list tags behind it. */
  predicate Wraps(p: seq<string>, q: seq<string>) {
    p <= q && forall i :: |p| <= i < |q| ==> IsTag(q[i])
  }

  /** Where one path extends another, it does so by list tags only and carries the same text. */
  ghost predicate OnlyWrapped(params: map<string, string>, prefix: string) {
    forall a, b :: Placed(params, prefix, a) && Placed(params, prefix, b)
                   && PathOf(a, prefix).value <= PathOf(b, prefix).value ==>
      Wraps(PathOf(a, prefix).value, PathOf(b, prefix).value) && params[a] == params[b]
  }

  /** The paths that extend one path lie on one chain. */
  ghost predicate OneChain(params: map<string, string>, prefix: string) {
    forall a, b, c :: Placed(params, prefix, a) && Placed(params, prefix, b) && Placed(params, prefix, c)
                      && PathOf(a, prefix).value <= PathOf(b, prefix).value
                      && PathOf(a, prefix).value <= PathOf(c, prefix).value ==>
      Related(PathOf(b, prefix).value, PathOf(c, prefix).value)
  }

  // ---- Harmless parameters give one value ----

  /** `q` holds the text in `n`, at `p` but for list tags. */
  predicate Matches(n: Node, p: seq<string>, q: seq<string>, s: string) {
    At(n, q) == Some(s) && (Wraps(p, q) || Wraps(q, p))
  }

  /** Every text of `n` is in `n'`, at the same place but for list tags. */
  ghost predicate Near(n: Node, n': Node) {
    forall p :: At(n, p).Some? ==> exists q :: Matches(n', p, q, At(n, p).value)
  }

  /** Behind a text of `n` there is at most one text in `n'`. */
  ghost predicate Sole(n: Node, n': Node) {
    forall p, q, q' :: At(n, p).Some? && At(n', q).Some? && At(n', q').Some? && p <= q && p <= q' ==> q == q'
  }

  ghost predicate Alike(n: Node, n': Node) { Near(n, n') && Near(n', n) && Sole(n, n') && Sole(n', n) }

  /** A node whose only text stands behind list tags converts to that text. */
  lemma {:induction false} ChainConvert(n: Node, q: seq<string>, s: string)
    requires Full(n) && At(n, q) == Some(s) && (forall p :: At(n, p).Some? ==> p == q)
    requires forall i :: 0 <= i < |q| ==> IsTag(q[i])
    ensures Convert(n) == Str(s)
    decreases |q|
  {
    if n.Branch? {
      var tag := q[0];
      forall k | k in n.kids
        ensures k == tag
      {
        var p := HoldsSome(n.kids[k]);
        AtKid(n.kids, k, p);
      }
      forall p | At(n.kids[tag], p).Some?
        ensures p == q[1..]
      {
        AtKid(n.kids, tag, p);
        assert ([tag] + p)[1..] == p;
      }
      ChainConvert(n.kids[tag], q[1..], s);
      assert n.kids == map[tag := n.kids[tag]];
      ConvertWrapper(tag, n.kids[tag]);
    }
  }

  lemma {:induction false} LeafAlike(s: string, n: Node)
    requires Full(n) && Near(Leaf(s), n) && Sole(Leaf(s), n)
    ensures Convert(n) == Str(s)
  {
    hide Convert;
    hide Full;
    hide Wraps;
    assert At(Leaf(s), []) == Some(s);
    var q :| Matches(n, [], q, s);
    forall p | At(n, p).Some?
      ensures p == q
    {
      assert [] <= p && [] <= q;
    }
    TagsBehindNothing(q);
    ChainConvert(n, q, s);
  }

  lemma {:induction false} TagsBehindNothing(q: seq<string>)
    requires Wraps([], q) || Wraps(q, [])
    ensures forall i :: 0 <= i < |q| ==> IsTag(q[i])
  {
  }

  lemma {:induction false} KidIn(n: map<string, Node>, n': map<string, Node>, k: string)
    requires Near(Branch(n), Branch(n')) && k in n && Full(n[k])
    ensures k in n'
  {
    var p := HoldsSome(n[k]);
    AtKid(n, k, p);
    var q :| Matches(Branch(n'), [k] + p, q, At(Branch(n), [k] + p).value);
    assert q != [] && q[0] == ([k] + p)[0];
  }

  lemma {:induction false} WrapsTail(k: string, p: seq<string>, q: seq<string>)
    ensures Wraps([k] + p, [k] + q) ==> Wraps(p, q)
  {
    if Wraps([k] + p, [k] + q) {
      assert p == ([k] + p)[1..] && q == ([k] + q)[1..];
      assert forall i :: |p| <= i < |q| ==> q[i] == ([k] + q)[i + 1];
    }
  }

  lemma {:induction false} KidNear(n: map<string, Node>, n': map<string, Node>, k: string)
    requires Near(Branch(n), Branch(n')) && k in n && k in n'
    ensures Near(n[k], n'[k])
  {
    forall p | At(n[k], p).Some?
      ensures exists q :: Matches(n'[k], p, q, At(n[k], p).value)
    {
      AtKid(n, k, p);
      var q :| Matches(Branch(n'), [k] + p, q, At(n[k], p).value);
      assert q != [] && q[0] == ([k] + p)[0];
      assert q == [k] + q[1..];
      AtKid(n', k, q[1..]);
      WrapsTail(k, p, q[1..]);
      WrapsTail(k, q[1..], p);
      assert Matches(n'[k], p, q[1..], At(n[k], p).value);
    }
  }

  lemma {:induction false} KidSole(n: map<string, Node>, n': map<string, Node>, k: string)
    requires Sole(Branch(n), Branch(n')) && k in n && k in n'
    ensures Sole(n[k], n'[k])
  {
    forall p, q, q' | At(n[k], p).Some? && At(n'[k], q).Some? && At(n'[k], q').Some? && p <= q && p <= q'
      ensures q == q'
    {
      AtKid(n, k, p);
      AtKid(n', k, q);
      AtKid(n', k, q');
      assert q == ([k] + q)[1..] && q' == ([k] + q')[1..];
    }
  }

  /** Branches with the same keys and like-converting children convert alike. */
  lemma {:induction false} SameConvert(n: map<string, Node>, n': map<string, Node>)
    requires n.Keys == n'.Keys && forall k :: k in n ==> Convert(n[k]) == Convert(n'[k])
    ensures Convert(Branch(n)) == Convert(Branch(n'))
  {
    assert n == map[] <==> n.Keys == {};
    assert n' == map[] <==> n'.Keys == {};
    if IsList(n) {
      ListsSame(n, n');
    } else {
      hide IsList;
      hide Numeric;
      if n.Keys == {"member"} {
        assert "member" in n;
      } else if n.Keys == {"entry"} {
        assert "entry" in n;
      }
    }
  }

  lemma {:induction false} ListsSame(n: map<string, Node>, n': map<string, Node>)
    requires IsList(n) && IsList(n') && n.Keys == n'.Keys && forall k :: k in n ==> Convert(n[k]) == Convert(n'[k])
    ensures Convert(Branch(n)) == Convert(Branch(n'))
  {
    hide Convert;
    hide IsList;
    hide Ordered;
    OrderedElements(n.Keys);
    var names := Ordered(n.Keys);
    assert forall i :: 0 <= i < |names| ==> names[i] in n;
    var items := seq(|names|, i requires 0 <= i < |names| => Convert(n[names[i]]));
    ConvertOrdered(n, names, items);
    ConvertOrdered(n', names, items);
  }

  lemma {:induction false} AlikeConvert(n: Node, n': Node)
    requires Full(n) && Full(n') && Alike(n, n')
    ensures Convert(n) == Convert(n')
    decreases n
  {
    match n
    case Leaf(s) => LeafAlike(s, n');
    case Branch(kids) =>
      if n'.Leaf? {
        LeafAlike(n'.text, n);
      } else {
        AlikeKids(kids, n'.kids);
        forall k | k in kids
          ensures Convert(kids[k]) == Convert(n'.kids[k])
        {
          AlikeConvert(kids[k], n'.kids[k]);
        }
        SameConvert(kids, n'.kids);
      }
  }

  lemma {:induction false} AlikeKids(n: map<string, Node>, n': map<string, Node>)
    requires FullKids(n) && FullKids(n') && Alike(Branch(n), Branch(n'))
    ensures n.Keys == n'.Keys && forall k :: k in n ==> Alike(n[k], n'[k])
  {
    forall k
      ensures k in n <==> k in n'
    {
      if k in n {
        KidIn(n, n', k);
      }
      if k in n' {
        KidIn(n', n, k);
      }
    }
    forall k | k in n
      ensures Alike(n[k], n'[k])
    {
      KidNear(n, n', k);
      KidNear(n', n, k);
      KidSole(n, n', k);
      KidSole(n', n, k);
    }
  }

  lemma {:induction false} AlikeRoots(n: map<string, Node>, n': map<string, Node>)
    requires FullKids(n) && FullKids(n') && Alike(Branch(n), Branch(n'))
    ensures Convert(Branch(n)) == Convert(Branch(n'))
  {
    AlikeKids(n, n');
    forall k | k in n
      ensures Convert(n[k]) == Convert(n'[k])
    {
      AlikeConvert(n[k], n'[k]);
    }
    SameConvert(n, n');
  }

  // ---- Every order of harmless parameters ----

  /** Every text in the trie is that of a parameter visited. */
  lemma {:induction false} TextsVisited(params: map<string, string>, prefix: string, order: seq<string>, q: seq<string>)
    returns (key: string)
    requires forall k :: k in order ==> k in params
    requires At(Branch(Build(params, prefix, order)), q).Some?
    ensures key in order && PathOf(key, prefix) == Some(q)
    ensures At(Branch(Build(params, prefix, order)), q) == Some(params[key])
  {
    var front, last := order[..|order| - 1], order[|order| - 1];
    var path := PathOf(last, prefix);
    assert last in order;
    if path.None? {
      key := TextsVisited(params, prefix, front, q);
    } else {
      InsertEffect(Build(params, prefix, front), path.value, params[last], q);
      if q == path.value {
        key := last;
      } else {
        key := TextsVisited(params, prefix, front, q);
      }
    }
  }

  /** Among harmless parameters relatives of relatives are relatives. */
  lemma {:induction false} RelatedTrans(params: map<string, string>, prefix: string, a: string, b: string, c: string)
    requires OneChain(params, prefix)
    requires Placed(params, prefix, a) && Placed(params, prefix, b) && Placed(params, prefix, c)
    requires Related(PathOf(a, prefix).value, PathOf(b, prefix).value)
    requires Related(PathOf(b, prefix).value, PathOf(c, prefix).value)
    ensures Related(PathOf(a, prefix).value, PathOf(c, prefix).value)
  {
    var p, q, r := PathOf(a, prefix).value, PathOf(b, prefix).value, PathOf(c, prefix).value;
    if p <= q && r <= q {
      if |p| <= |r| {
        assert p == q[..|p|] && r == q[..|r|];
      } else {
        assert p == q[..|p|] && r == q[..|r|];
      }
    }
  }

  /** Of each visited parameter or a relative of it the text is still there. */
  lemma {:induction false} StillThere(params: map<string, string>, prefix: string, order: seq<string>, key: string)
    returns (kept: string)
    requires OneChain(params, prefix) && (forall k :: k in order ==> k in params)
    requires key in order && PathOf(key, prefix).Some?
    ensures kept in order && PathOf(kept, prefix).Some?
    ensures Related(PathOf(key, prefix).value, PathOf(kept, prefix).value)
    ensures At(Branch(Build(params, prefix, order)), PathOf(kept, prefix).value).Some?
  {
    var front, last := order[..|order| - 1], order[|order| - 1];
    var kids := Build(params, prefix, front);
    assert last in order;
    if key == last {
      kept := last;
      InsertEffect(kids, PathOf(last, prefix).value, params[last], PathOf(last, prefix).value);
    } else {
      assert key in front;
      kept := StillThere(params, prefix, front, key);
      if PathOf(last, prefix).Some? {
        InsertEffect(kids, PathOf(last, prefix).value, params[last], PathOf(kept, prefix).value);
        InsertEffect(kids, PathOf(last, prefix).value, params[last], PathOf(last, prefix).value);
        if Related(PathOf(last, prefix).value, PathOf(kept, prefix).value) {
          RelatedTrans(params, prefix, key, kept, last);
          kept := last;
        }
      }
    }
  }

  lemma {:induction false} OrdersNear(params: map<string, string>, prefix: string, o: seq<string>, o': seq<string>)
    requires OnlyWrapped(params, prefix) && OneChain(params, prefix)
    requires Visits(o, params.Keys) && Visits(o', params.Keys)
    ensures Near(Branch(Build(params, prefix, o)), Branch(Build(params, prefix, o')))
  {
    var n, n' := Branch(Build(params, prefix, o)), Branch(Build(params, prefix, o'));
    forall p | At(n, p).Some?
      ensures exists q :: Matches(n', p, q, At(n, p).value)
    {
      var key := TextsVisited(params, prefix, o, p);
      var kept := StillThere(params, prefix, o', key);
      var q := PathOf(kept, prefix).value;
      var key' := TextsVisited(params, prefix, o', q);
      PathInjective(kept, key', prefix);
      assert Placed(params, prefix, key) && Placed(params, prefix, kept);
      assert Matches(n', p, q, At(n, p).value);
    }
  }

  lemma {:induction false} OrdersSole(params: map<string, string>, prefix: string, o: seq<string>, o': seq<string>)
    requires OneChain(params, prefix) && Visits(o, params.Keys) && Visits(o', params.Keys)
    ensures Sole(Branch(Build(params, prefix, o)), Branch(Build(params, prefix, o')))
  {
    var n, n' := Branch(Build(params, prefix, o)), Branch(Build(params, prefix, o'));
    forall p, q, q' | At(n, p).Some? && At(n', q).Some? && At(n', q').Some? && p <= q && p <= q'
      ensures q == q'
    {
      var a := TextsVisited(params, prefix, o, p);
      var b := TextsVisited(params, prefix, o', q);
      var c := TextsVisited(params, prefix, o', q');
      assert Placed(params, prefix, a) && Placed(params, prefix, b) && Placed(params, prefix, c);
      assert Related(q, q');
      if q <= q' {
        OnePath(n', q, q');
      } else {
        OnePath(n', q', q);
      }
    }
  }

  lemma {:induction false} HarmlessFree(params: map<string, string>, prefix: string, o: seq<string>, o': seq<string>)
    requires OnlyWrapped(params, prefix) && OneChain(params, prefix)
    requires Visits(o, params.Keys) && Visits(o', params.Keys)
    ensures Decoded(params, prefix, o) == Decoded(params, prefix, o')
  {
    hide Near;
    hide Sole;
    BuildFrom(params, prefix, o);
    BuildFrom(params, prefix, o');
    OrdersNear(params, prefix, o, o');
    OrdersNear(params, prefix, o', o);
    OrdersSole(params, prefix, o, o');
    OrdersSole(params, prefix, o', o);
    AlikeRoots(Build(params, prefix, o), Build(params, prefix, o'));
  }

  // ---- Harmful parameters give two values ----

  /** The tries are the same but for what stands at `m`. */
  predicate SameBut(n: map<string, Node>, n': map<string, Node>, m: seq<string>, x: Node, x': Node)
    decreases |m|
  {
    && m != [] && m[0] in n && n.Keys == n'.Keys && (forall k :: k in n && k != m[0] ==> n[k] == n'[k])
    && if |m| == 1 then n[m[0]] == x && n'[m[0]] == x'
       else n[m[0]].Branch? && n'[m[0]].Branch? && SameBut(n[m[0]].kids, n'[m[0]].kids, m[1..], x, x')
  }

  /** Converting keeps apart what stands at one place. */
  lemma {:induction false} ConvertApart(n: map<string, Node>, n': map<string, Node>, k: string)
    requires k in n && n.Keys == n'.Keys && forall j :: j in n && j != k ==> n[j] == n'[j]
    ensures Convert(Branch(n)) == Convert(Branch(n')) <==> Convert(n[k]) == Convert(n'[k])
  {
    if Convert(n[k]) == Convert(n'[k]) {
      SameConvert(n, n');
    } else if IsList(n) {
      ListsApart(n, n', k);
    } else {
      assert n != map[] && n' != map[];
      assert !IsList(n');
      hide IsList;
      if n.Keys == {"member"} || n.Keys == {"entry"} {
        assert k in n.Keys;
      } else {
        assert Convert(Branch(n)).fields[k] != Convert(Branch(n')).fields[k];
      }
    }
  }

  lemma {:induction false} ListsApart(n: map<string, Node>, n': map<string, Node>, k: string)
    requires IsList(n) && k in n && n.Keys == n'.Keys && Convert(n[k]) != Convert(n'[k])
    ensures Convert(Branch(n)) != Convert(Branch(n'))
  {
    hide Ordered;
    hide Numeric;
    OrderedElements(n.Keys);
    assert n' != map[];
    assert IsList(n');
    var names := Ordered(n.Keys);
    var i :| 0 <= i < |names| && names[i] == k;
    assert Convert(Branch(n)).items[i] == Convert(n[k]);
    assert Convert(Branch(n')).items[i] == Convert(n'[k]);
  }

  lemma {:induction false} HoleConvert(n: map<string, Node>, n': map<string, Node>, m: seq<string>, x: Node, x': Node)
    requires SameBut(n, n', m, x, x')
    ensures Convert(Branch(n)) == Convert(Branch(n')) <==> Convert(x) == Convert(x')
    decreases |m|
  {
    hide Convert;
    ConvertApart(n, n', m[0]);
    if |m| > 1 {
      HoleConvert(n[m[0]].kids, n'[m[0]].kids, m[1..], x, x');
    }
  }

  lemma {:induction false} HoleThere(n: map<string, Node>, m: seq<string>, s: string)
    requires At(Branch(n), m) == Some(s)
    ensures SameBut(n, n, m, Leaf(s), Leaf(s))
    decreases |m|
  {
    if |m| == 1 {
      assert m[1..] == [];
    } else {
      HoleThere(n[m[0]].kids, m[1..], s);
    }
  }

  function KidsOf(n: Node): map<string, Node> { if n.Branch? then n.kids else map[] }

  /** Inserting behind `m` changes only what stands there. */
  lemma {:induction false} InsertInHole(n: map<string, Node>, n': map<string, Node>, m: seq<string>, x: Node, x': Node,
                                        e: seq<string>, v: string)
    requires SameBut(n, n', m, x, x') && e != []
    ensures SameBut(n, Insert(n', m + e, v), m, x, Branch(Insert(KidsOf(x'), e, v)))
    decreases |m|
  {
    assert (m + e)[0] == m[0] && (m + e)[1..] == m[1..] + e;
    if |m| == 1 {
      assert m[1..] + e == e;
    } else {
      InsertInHole(n[m[0]].kids, n'[m[0]].kids, m[1..], x, x', e, v);
    }
  }

  /** A single text behind list tags converts to itself, and behind anything else to something else. */
  lemma {:induction false} OneInserted(e: seq<string>, v: string, s: string)
    requires e != []
    ensures Convert(Branch(Insert(map[], e, v))) == Str(s) <==> v == s && forall i :: 0 <= i < |e| ==> IsTag(e[i])
    decreases |e|
  {
    var kids := Insert(map[], e, v);
    assert kids.Keys == {e[0]};
    if |e| > 1 {
      OneInserted(e[1..], v, s);
      assert forall i :: 1 <= i < |e| ==> e[i] == e[1..][i - 1];
    }
    SingleKey(kids, e[0], s);
  }

  lemma {:induction false} SingleKey(kids: map<string, Node>, k: string, s: string)
    requires kids.Keys == {k}
    ensures Convert(Branch(kids)) == Str(s) <==> IsTag(k) && Convert(kids[k]) == Str(s)
  {
    assert k in kids;
    if IsTag(k) {
      assert kids == map[k := kids[k]];
      ConvertWrapper(k, kids[k]);
    } else {
      assert kids.Keys != {"member"} && kids.Keys != {"entry"};
    }
  }

  /** Two texts at unrelated places never convert to one text. */
  lemma {:induction false} TwoInserted(e: seq<string>, e': seq<string>, v: string, v': string, s: string)
    requires !Related(e, e')
    ensures Convert(Branch(Insert(Insert(map[], e, v), e', v'))) != Str(s)
    decreases |e|
  {
    var kids := Insert(Insert(map[], e, v), e', v');
    assert e != [] && e' != [];
    if e[0] == e'[0] {
      Cons(e, e');
      assert |e| > 1 && |e'| > 1;
      TwoInserted(e[1..], e'[1..], v, v', s);
      assert kids.Keys == {e[0]};
      assert kids[e[0]] == Branch(Insert(Insert(map[], e[1..], v), e'[1..], v'));
      SingleKey(kids, e[0], s);
    } else {
      assert e[0] in kids && e'[0] in kids;
      assert kids.Keys != {"member"} && kids.Keys != {"entry"};
    }
  }

  lemma {:induction false} BuildSnoc(params: map<string, string>, prefix: string, order: seq<string>, key: string)
    requires key in params && forall k :: k in order ==> k in params
    ensures var kids, path := Build(params, prefix, order), PathOf(key, prefix);
            Build(params, prefix, order + [key]) == if path.None? then kids else Insert(kids, path.value, params[key])
  {
    assert (order + [key])[..|order|] == order;
  }

  lemma {:induction false} AnyOrder(keys: set<string>) returns (order: seq<string>)
    ensures Visits(order, keys)
    decreases |keys|
  {
    if keys == {} {
      order := [];
    } else {
      var k :| k in keys;
      var front := AnyOrder(keys - {k});
      order := front + [k];
    }
  }

  /** Visiting one key more. */
  lemma {:induction false} VisitsSnoc(order: seq<string>, keys: set<string>, key: string)
    requires Visits(order, keys) && key !in keys
    ensures Visits(order + [key], keys + {key})
  {
  }

  lemma {:induction false} RelatedUp(m: seq<string>, d: seq<string>, q: seq<string>)
    requires m <= d
    ensures Related(d, q) ==> Related(m, q)
  {
    if q <= d {
      assert m == d[..|m|] && q == d[..|q|];
    } else if d <= q {
      assert m == d[..|m|] && d == q[..|d|];
    }
  }

  /** A text written over a place undoes what was written behind it. */
  lemma {:induction false} Overwrite(kids: map<string, Node>, m: seq<string>, d: seq<string>, v: string, w: string)
    requires FullKids(kids) && m != [] && m <= d
    ensures Insert(Insert(kids, d, w), m, v) == Insert(kids, m, v)
  {
    var n, n' := Insert(Insert(kids, d, w), m, v), Insert(kids, m, v);
    InsertFull(kids, d, w);
    InsertFull(Insert(kids, d, w), m, v);
    InsertFull(kids, m, v);
    forall q
      ensures At(Branch(n), q) == At(Branch(n'), q)
    {
      InsertEffect(Insert(kids, d, w), m, v, q);
      InsertEffect(kids, d, w, q);
      InsertEffect(kids, m, v, q);
      RelatedUp(m, d, q);
    }
    SameTrie(n, n');
  }

  /** Writing behind a text changes the value, unless it writes the same text behind list tags. */
  lemma {:induction false} OneApart(kids: map<string, Node>, m: seq<string>, d: seq<string>, v: string, w: string)
    requires m != [] && m <= d && m != d && !(Wraps(m, d) && v == w)
    ensures var n := Insert(kids, m, v); Convert(Branch(n)) != Convert(Branch(Insert(n, d, w)))
  {
    hide Convert;
    var n, e := Insert(kids, m, v), d[|m|..];
    InsertEffect(kids, m, v, m);
    HoleThere(n, m, v);
    assert m + e == d;
    InsertInHole(n, n, m, Leaf(v), Leaf(v), e, w);
    HoleConvert(n, Insert(n, d, w), m, Leaf(v), Branch(Insert(map[], e, w)));
    LeafIsString(v);
    OneInserted(e, w, v);
    assert forall i :: |m| <= i < |d| ==> d[i] == e[i - |m|];
  }

  /** Writing at two unrelated places behind a text changes the value. */
  lemma {:induction false} TwoApart(kids: map<string, Node>, m: seq<string>, q: seq<string>, r: seq<string>,
                                    v: string, w: string, w': string)
    requires m != [] && m <= q && m <= r && !Related(q, r)
    ensures var n := Insert(kids, m, v); Convert(Branch(n)) != Convert(Branch(Insert(Insert(n, q, w), r, w')))
  {
    hide Convert;
    var n, e, f := Insert(kids, m, v), q[|m|..], r[|m|..];
    InsertEffect(kids, m, v, m);
    HoleThere(n, m, v);
    assert m + e == q && m + f == r;
    UnrelatedTails(m, e, f);
    InsertInHole(n, n, m, Leaf(v), Leaf(v), e, w);
    InsertInHole(n, Insert(n, q, w), m, Leaf(v), Branch(Insert(map[], e, w)), f, w');
    HoleConvert(n, Insert(Insert(n, q, w), r, w'), m, Leaf(v), Branch(Insert(Insert(map[], e, w), f, w')));
    LeafIsString(v);
    TwoInserted(e, f, w, w', v);
  }

  lemma {:induction false} Unwrapped(params: map<string, string>, prefix: string, a: string, b: string)
    requires Placed(params, prefix, a) && Placed(params, prefix, b) && a != b
    requires PathOf(a, prefix).value <= PathOf(b, prefix).value
    requires !(Wraps(PathOf(a, prefix).value, PathOf(b, prefix).value) && params[a] == params[b])
    ensures !OrderFree(params, prefix)
  {
    hide Convert;
    hide Visits;
    hide PathOf;
    hide Insert;
    hide Build;
    var m, d := PathOf(a, prefix).value, PathOf(b, prefix).value;
    NotRoot(a, prefix);
    if m == d {
      PathInjective(a, b, prefix);
    }
    var o := AnyOrder(params.Keys - {a, b});
    TwoOrders(params, o, a, b);
    OrderKeys(params, o, params.Keys - {a, b});
    OrderKeys(params, o + [a] + [b], params.Keys);
    OrderKeys(params, o + [b] + [a], params.Keys);
    BuildFrom(params, prefix, o);
    var kids := Build(params, prefix, o);
    BuildSnoc(params, prefix, o, b);
    BuildSnoc(params, prefix, o + [b], a);
    BuildSnoc(params, prefix, o, a);
    BuildSnoc(params, prefix, o + [a], b);
    Overwrite(kids, m, d, params[a], params[b]);
    OneApart(kids, m, d, params[a], params[b]);
    assert Decoded(params, prefix, o + [b] + [a]) != Decoded(params, prefix, o + [a] + [b]);
  }

  lemma {:induction false} NotRoot(key: string, prefix: string)
    requires PathOf(key, prefix).Some?
    ensures PathOf(key, prefix).value != []
  {
  }

  lemma {:induction false} OrderKeys(params: map<string, string>, order: seq<string>, keys: set<string>)
    requires Visits(order, keys) && keys <= params.Keys
    ensures forall k :: k in order ==> k in params
  {
  }

  lemma {:induction false} TwoOrders(params: map<string, string>, o: seq<string>, a: string, b: string)
    requires a in params && b in params && a != b && Visits(o, params.Keys - {a, b})
    ensures Visits(o + [a] + [b], params.Keys) && Visits(o + [b] + [a], params.Keys)
  {
    var keys := params.Keys - {a, b};
    VisitsSnoc(o, keys, a);
    VisitsSnoc(o + [a], keys + {a}, b);
    VisitsSnoc(o, keys, b);
    VisitsSnoc(o + [b], keys + {b}, a);
    assert keys + {a} + {b} == params.Keys && keys + {b} + {a} == params.Keys;
  }

  lemma {:induction false} ThreeOrders(params: map<string, string>, o: seq<string>, a: string, b: string, c: string)
    requires a in params && b in params && c in params && a != b && a != c && b != c
    requires Visits(o, params.Keys - {a, b, c})
    ensures Visits(o + [a] + [b] + [c], params.Keys) && Visits(o + [b] + [c] + [a], params.Keys)
  {
    var keys := params.Keys - {a, b, c};
    VisitsSnoc(o, keys, a);
    VisitsSnoc(o + [a], keys + {a}, b);
    VisitsSnoc(o + [a] + [b], keys + {a} + {b}, c);
    VisitsSnoc(o, keys, b);
    VisitsSnoc(o + [b], keys + {b}, c);
    VisitsSnoc(o + [b] + [c], keys + {b} + {c}, a);
    assert keys + {a} + {b} + {c} == params.Keys && keys + {b} + {c} + {a} == params.Keys;
  }

  lemma {:induction false} Forked(params: map<string, string>, prefix: string, a: string, b: string, c: string)
    requires Placed(params, prefix, a) && Placed(params, prefix, b) && Placed(params, prefix, c)
    requires PathOf(a, prefix).value <= PathOf(b, prefix).value && PathOf(a, prefix).value <= PathOf(c, prefix).value
    requires !Related(PathOf(b, prefix).value, PathOf(c, prefix).value)
    ensures !OrderFree(params, prefix)
  {
    hide Convert;
    hide Visits;
    hide PathOf;
    hide Insert;
    hide Build;
    var m, q, r := PathOf(a, prefix).value, PathOf(b, prefix).value, PathOf(c, prefix).value;
    NotRoot(a, prefix);
    var o := AnyOrder(params.Keys - {a, b, c});
    ThreeOrders(params, o, a, b, c);
    OrderKeys(params, o, params.Keys - {a, b, c});
    OrderKeys(params, o + [a] + [b] + [c], params.Keys);
    OrderKeys(params, o + [b] + [c] + [a], params.Keys);
    BuildFrom(params, prefix, o);
    var kids := Build(params, prefix, o);
    BuildSnoc(params, prefix, o, b);
    BuildSnoc(params, prefix, o + [b], c);
    BuildSnoc(params, prefix, o + [b] + [c], a);
    BuildSnoc(params, prefix, o, a);
    BuildSnoc(params, prefix, o + [a], b);
    BuildSnoc(params, prefix, o + [a] + [b], c);
    InsertFull(kids, q, params[b]);
    Overwrite(Insert(kids, q, params[b]), m, r, params[a], params[c]);
    Overwrite(kids, m, q, params[a], params[b]);
    TwoApart(kids, m, q, r, params[a], params[b], params[c]);
    assert Decoded(params, prefix, o + [b] + [c] + [a]) != Decoded(params, prefix, o + [a] + [b] + [c]);
  }

  lemma {:induction false} UnrelatedTails(m: seq<string>, e: seq<string>, f: seq<string>)
    ensures Related(m + e, m + f) <==> Related(e, f)
  {
    if e <= f {
      assert m + f == (m + e) + f[|e|..];
    } else if f <= e {
      assert m + e == (m + f) + e[|f|..];
    }
    if m + e <= m + f {
      assert e == (m + e)[|m|..] && f == (m + f)[|m|..];
      assert (m + f)[..|m + e|] == m + e;
      assert f[..|e|] == e;
    } else if m + f <= m + e {
      assert e == (m + e)[|m|..] && f == (m + f)[|m|..];
      assert (m + e)[..|m + f|] == m + f;
      assert e[..|f|] == f;
    }
  }

  /** ORDER. The order of the hash table never shows in the decoded value exactly when a path that extends another
      does so by list tags only and with the same text, and the paths that extend one path lie on one chain. */
  lemma {:induction false} OrderIrrelevant(params: map<string, string>, prefix: string)
    ensures OrderFree(params, prefix) <==> OnlyWrapped(params, prefix) && OneChain(params, prefix)
  {
    if OnlyWrapped(params, prefix) && OneChain(params, prefix) {
      forall o, o' | Visits(o, params.Keys) && Visits(o', params.Keys)
        ensures Decoded(params, prefix, o) == Decoded(params, prefix, o')
      {
        HarmlessFree(params, prefix, o, o');
      }
    } else if !OnlyWrapped(params, prefix) {
      var a, b :| Placed(params, prefix, a) && Placed(params, prefix, b)
                  && PathOf(a, prefix).value <= PathOf(b, prefix).value
                  && !(Wraps(PathOf(a, prefix).value, PathOf(b, prefix).value) && params[a] == params[b]);
      Unwrapped(params, prefix, a, b);
    } else {
      var a, b, c :| Placed(params, prefix, a) && Placed(params, prefix, b) && Placed(params, prefix, c)
                     && PathOf(a, prefix).value <= PathOf(b, prefix).value
                     && PathOf(a, prefix).value <= PathOf(c, prefix).value
                     && !Related(PathOf(b, prefix).value, PathOf(c, prefix).value);
      Forked(params, prefix, a, b, c);
    }
  }

  // ---- At particular parameters ----

  lemma {:induction false} PathOfWord(w: string)
    requires '.' !in w
    ensures PathOf(w, "") == Some([w])
  {
    SplitWord(w);
  }

  lemma {:induction false} PathOfPair(v: string, w: string)
    requires '.' !in v && '.' !in w
    ensures PathOf(v + "." + w, "") == Some([v, w])
  {
    SplitWord(w);
    SplitThen(v, w);
    assert [v] + [w] == [v, w];
  }

  /** The trie of two parameters, read in this order. */
  lemma {:induction false} BuildTwo(params: map<string, string>, k: string, p: seq<string>, l: string, q: seq<string>)
    requires PathOf(k, "") == Some(p) && PathOf(l, "") == Some(q) && k in params && l in params
    ensures Build(params, "", [k, l]) == Insert(Insert(map[], p, params[k]), q, params[l])
  {
    hide Insert;
    hide PathOf;
    BuildOne(params, [], k, p);
    BuildOne(params, [k], l, q);
    assert [] + [k] == [k] && [k] + [l] == [k, l];
    assert Build(params, "", []) == map[];
  }

  /** A parameter and one below it, in both orders. */
  lemma {:induction false} InsertBoth(v: string, w: string, x: string, y: string)
    ensures Insert(Insert(map[], [v, w], y), [v], x) == map[v := Leaf(x)]
    ensures Insert(Insert(map[], [v], x), [v, w], y) == map[v := Branch(map[w := Leaf(y)])]
  {
    assert [v, w][1..] == [w];
    assert Insert(map[], [w], y) == map[w := Leaf(y)];
    assert Insert(map[], [v], x) == map[v := Leaf(x)];
  }

  lemma {:induction false} BuildOne(params: map<string, string>, order: seq<string>, key: string, path: seq<string>)
    requires PathOf(key, "") == Some(path) && key in params && (forall k :: k in order ==> k in params)
    ensures Build(params, "", order + [key]) == Insert(Build(params, "", order), path, params[key])
  {
    hide Insert;
    hide Split;
    BuildSnoc(params, "", order, key);
  }

  /** Two parameters whose order shows: one is on the way to the other. */
  lemma {:induction false} OrderMatters(x: string, y: string)
    ensures var params := map["a" := x, "a.b" := y];
            && Visits(["a", "a.b"], params.Keys) && Visits(["a.b", "a"], params.Keys)
            && Decoded(params, "", ["a.b", "a"]) == Obj(map["a" := Str(x)])
            && Decoded(params, "", ["a", "a.b"]) == Obj(map["a" := Obj(map["b" := Str(y)])])
  {
    hide Build;
    hide Insert;
    hide Convert;
    hide PathOf;
    var params := map["a" := x, "a.b" := y];
    PathOfWord("a");
    PathOfPair("a", "b");
    assert "a" + "." + "b" == "a.b";
    BuildTwo(params, "a.b", ["a", "b"], "a", ["a"]);
    BuildTwo(params, "a", ["a"], "a.b", ["a", "b"]);
    InsertBoth("a", "b", x, y);
    LeafIsString(x);
    LeafIsString(y);
    PlainObject("a", Leaf(x));
    PlainObject("b", Leaf(y));
    PlainObject("a", Branch(map["b" := Leaf(y)]));
  }

  lemma {:induction false} PlainObject(k: string, n: Node)
    requires !Numeric(k) && !IsTag(k)
    ensures Convert(Branch(map[k := n])) == Obj(map[k := Convert(n)])
  {
    hide Numeric;
    var kids := map[k := n];
    assert k in kids && !IsList(kids);
    assert kids.Keys == {k};
    assert kids.Keys != {"member"} && kids.Keys != {"entry"};
  }

  /** Two parameters whose paths extend each other, and whose order does not show. */
  lemma {:induction false} OrderHidden(x: string)
    ensures OrderFree(map["a" := x, "a.member" := x], "")
  {
    hide PathOf;
    hide OrderFree;
    var params := map["a" := x, "a.member" := x];
    PathOfWord("a");
    PathOfPair("a", "member");
    assert "a" + "." + "member" == "a.member";
    var p: seq<string>, q: seq<string> := ["a"], ["a", "member"];
    assert p <= q && Wraps(p, q) && Wraps(p, p) && Wraps(q, q);
    OrderIrrelevant(params, "");
  }
}
