/** What decoding Query parameters promises: the exact effect of one parameter, when the order of
    the parameters matters, and which values survive being flattened and decoded. */
module QueryTheorems {
  import opened Options
  import opened Text
  import opened Query

  // ---- What a trie holds ----

  /** The text stored at a path. */
  function At(n: Node, p: seq<string>): Option<string>
    decreases |p|
  {
    match n
    case Leaf(s) => if p == [] then Some(s) else None
    case Branch(kids) => if p != [] && p[0] in kids then At(kids[p[0]], p[1..]) else None
  }

  /** No branch below the root is empty. */
  predicate Full(n: Node) {
    n.Branch? ==> n.kids != map[] && forall k :: k in n.kids ==> Full(n.kids[k])
  }

  predicate FullKids(kids: map<string, Node>) {
    forall k :: k in kids ==> Full(kids[k])
  }

  predicate Related(p: seq<string>, q: seq<string>) { p <= q || q <= p }

  /** INSERT. Writing a path keeps every unrelated path, and removes the paths it extends or is extended by. */
  lemma {:induction false} InsertEffect(kids: map<string, Node>, p: seq<string>, v: string, q: seq<string>)
    requires p != []
    ensures At(Branch(Insert(kids, p, v)), q)
         == if q == p then Some(v) else if Related(p, q) then None else At(Branch(kids), q)
    decreases |p|
  {
    if q != [] && q[0] == p[0] {
      assert q[1..] == p[1..] <==> q == p by { Cons(p, q); }
      assert Related(p[1..], q[1..]) <==> Related(p, q) by { Cons(p, q); }
      if |p| > 1 {
        var inner := if p[0] in kids && kids[p[0]].Branch? then kids[p[0]].kids else map[];
        InsertEffect(inner, p[1..], v, q[1..]);
      }
    }
  }

  lemma {:induction false} Cons(p: seq<string>, q: seq<string>)
    requires p != [] && q != [] && p[0] == q[0]
    ensures p[1..] == q[1..] <==> p == q
    ensures p[1..] <= q[1..] <==> p <= q
    ensures q[1..] <= p[1..] <==> q <= p
  {
    assert p == [p[0]] + p[1..] && q == [q[0]] + q[1..];
  }

  lemma {:induction false} InsertFull(kids: map<string, Node>, p: seq<string>, v: string)
    requires FullKids(kids)
    ensures FullKids(Insert(kids, p, v)) && (p != [] ==> Insert(kids, p, v) != map[])
    decreases |p|
  {
    if p != [] {
      assert p[0] in Insert(kids, p, v);
      if |p| > 1 {
        var inner := if p[0] in kids && kids[p[0]].Branch? then kids[p[0]].kids else map[];
        assert p[0] in kids ==> Full(kids[p[0]]);
        InsertFull(inner, p[1..], v);
      }
    }
  }

  /** A full node holds something. */
  lemma {:induction false} HoldsSome(n: Node) returns (p: seq<string>)
    requires Full(n)
    ensures At(n, p).Some?
  {
    match n
    case Leaf(_) => p := [];
    case Branch(kids) =>
      var k :| k in kids;
      var q := HoldsSome(kids[k]);
      p := [k] + q;
      assert p[1..] == q;
  }

  ghost predicate SameKids(a: map<string, Node>, b: map<string, Node>) {
    forall p :: At(Branch(a), p) == At(Branch(b), p)
  }

  lemma {:induction false} KidsSame(a: map<string, Node>, b: map<string, Node>, k: string)
    requires SameKids(a, b) && k in a && k in b
    ensures forall p :: At(a[k], p) == At(b[k], p)
  {
    forall p
      ensures At(a[k], p) == At(b[k], p)
    {
      AtKid(a, k, p);
      AtKid(b, k, p);
    }
  }

  lemma {:induction false} SameNode(a: Node, b: Node)
    requires Full(a) && Full(b) && forall p :: At(a, p) == At(b, p)
    ensures a == b
    decreases a
  {
    assert At(a, []) == At(b, []);
    if a.Branch? {
      KeysAgree(a.kids, b.kids);
      KeysAgree(b.kids, a.kids);
      forall k | k in a.kids
        ensures a.kids[k] == b.kids[k]
      {
        KidsSame(a.kids, b.kids, k);
        SameNode(a.kids[k], b.kids[k]);
      }
      assert a.kids == b.kids;
    }
  }

  /** Full tries that hold the same texts at the same paths are equal. */
  lemma {:induction false} SameTrie(a: map<string, Node>, b: map<string, Node>)
    requires FullKids(a) && FullKids(b) && SameKids(a, b)
    ensures a == b
  {
    KeysAgree(a, b);
    KeysAgree(b, a);
    forall k | k in a
      ensures a[k] == b[k]
    {
      KidsSame(a, b, k);
      SameNode(a[k], b[k]);
    }
  }

  lemma {:induction false} AtKid(kids: map<string, Node>, k: string, p: seq<string>)
    requires k in kids
    ensures At(Branch(kids), [k] + p) == At(kids[k], p)
  {
    assert ([k] + p)[1..] == p;
  }

  lemma {:induction false} KeysAgree(a: map<string, Node>, b: map<string, Node>)
    requires FullKids(a) && SameKids(a, b)
    ensures forall k :: k in a ==> k in b
  {
    forall k | k in a
      ensures k in b
    {
      var p := HoldsSome(a[k]);
      AtKid(a, k, p);
      assert At(Branch(b), [k] + p).Some?;
    }
  }

  // ---- Keys and paths ----

  /** The path a key names below the prefix. */
  function PathOf(key: string, prefix: string): Option<seq<string>> {
    var rest := Below(key, prefix);
    if rest.None? then None else Some(Split(rest.value))
  }

  function Dotted(parts: seq<string>): string {
    if parts == [] then "" else if |parts| == 1 then parts[0] else parts[0] + "." + Dotted(parts[1..])
  }

  predicate DotFree(parts: seq<string>) {
    forall i :: 0 <= i < |parts| ==> '.' !in parts[i]
  }

  lemma {:induction false} DottedSplit(s: string)
    ensures Dotted(Split(s)) == s
  {
    if s != "" {
      DottedSplit(s[1..]);
      var rest := Split(s[1..]);
      if s[0] == '.' {
        assert ([""] + rest)[1..] == rest;
        assert "" + "." + Dotted(rest) == s;
      } else {
        assert ([[s[0]] + rest[0]] + rest[1..])[1..] == rest[1..];
        assert s == [s[0]] + s[1..];
      }
    }
  }

  lemma {:induction false} SplitDotted(parts: seq<string>)
    requires parts != [] && DotFree(parts)
    ensures Split(Dotted(parts)) == parts
  {
    if |parts| == 1 {
      SplitWord(parts[0]);
    } else {
      SplitDotted(parts[1..]);
      SplitThen(parts[0], Dotted(parts[1..]));
      assert parts == [parts[0]] + parts[1..];
    }
  }

  lemma {:induction false} SplitWord(w: string)
    requires '.' !in w
    ensures Split(w) == [w]
  {
    if w != "" {
      SplitWord(w[1..]);
      assert w == [w[0]] + w[1..];
    }
  }

  lemma {:induction false} SplitThen(w: string, s: string)
    requires '.' !in w
    ensures Split(w + "." + s) == [w] + Split(s)
  {
    var t := w + "." + s;
    if w == "" {
      assert t[1..] == s;
    } else {
      SplitThen(w[1..], s);
      assert t[1..] == w[1..] + "." + s;
      assert w == [w[0]] + w[1..];
    }
  }

  /** Different keys name different paths. */
  lemma {:induction false} PathInjective(a: string, b: string, prefix: string)
    requires PathOf(a, prefix).Some? && PathOf(a, prefix) == PathOf(b, prefix)
    ensures a == b
  {
    DottedSplit(Below(a, prefix).value);
    DottedSplit(Below(b, prefix).value);
    if prefix != "" {
      assert a == prefix + "." + a[|prefix| + 1..];
      assert b == prefix + "." + b[|prefix| + 1..];
    }
  }

  // ---- The order of the parameters ----

  /** No parameter's path extends another's. */
  ghost predicate PrefixFree(keys: set<string>, prefix: string) {
    forall a, b :: a in keys && b in keys && a != b && PathOf(a, prefix).Some? && PathOf(b, prefix).Some?
      ==> !Related(PathOf(a, prefix).value, PathOf(b, prefix).value)
  }

  ghost predicate Names(key: string, prefix: string, p: seq<string>) { PathOf(key, prefix) == Some(p) }

  /** The trie holds the given parameters and nothing else. */
  ghost predicate Holds(kids: map<string, Node>, params: map<string, string>, prefix: string, keys: set<string>)
    requires keys <= params.Keys
  {
    && (forall k :: k in keys && PathOf(k, prefix).Some? ==> At(Branch(kids), PathOf(k, prefix).value) == Some(params[k]))
    && (forall q :: At(Branch(kids), q).Some? ==> exists k :: k in keys && Names(k, prefix, q))
  }

  /** Nothing gets into the trie but through a parameter, and no branch stays empty. */
  lemma {:induction false} BuildFrom(params: map<string, string>, prefix: string, order: seq<string>)
    requires forall k :: k in order ==> k in params
    ensures FullKids(Build(params, prefix, order))
    ensures forall q :: At(Branch(Build(params, prefix, order)), q).Some? ==> exists k :: k in order && Names(k, prefix, q)
  {
    if order != [] {
      var front, key := order[..|order| - 1], order[|order| - 1];
      var kids := Build(params, prefix, front);
      BuildFrom(params, prefix, front);
      assert key in order;
      if PathOf(key, prefix).Some? {
        var p := PathOf(key, prefix).value;
        InsertFull(kids, p, params[key]);
        forall q | At(Branch(Insert(kids, p, params[key])), q).Some?
          ensures exists k :: k in order && Names(k, prefix, q)
        {
          InsertEffect(kids, p, params[key], q);
          if q == p {
            assert Names(key, prefix, q);
          } else {
            var k :| k in front && Names(k, prefix, q);
          }
        }
      }
    }
  }

  lemma {:induction false} BuildHolds(params: map<string, string>, prefix: string, order: seq<string>,
                                      keys: set<string>)
    requires keys <= params.Keys && Visits(order, keys) && PrefixFree(keys, prefix)
    ensures Holds(Build(params, prefix, order), params, prefix, keys)
    decreases |order|
  {
    BuildFrom(params, prefix, order);
    if order != [] {
      var front, key := order[..|order| - 1], order[|order| - 1];
      assert Visits(front, keys - {key}) by { FrontVisits(order, keys); }
      BuildHolds(params, prefix, front, keys - {key});
      var kids := Build(params, prefix, front);
      if PathOf(key, prefix).Some? {
        forall k | k in keys && PathOf(k, prefix).Some?
          ensures At(Branch(Build(params, prefix, order)), PathOf(k, prefix).value) == Some(params[k])
        {
          InsertEffect(kids, PathOf(key, prefix).value, params[key], PathOf(k, prefix).value);
        }
      }
    }
  }

  lemma {:induction false} FrontVisits(order: seq<string>, keys: set<string>)
    requires order != [] && Visits(order, keys)
    ensures Visits(order[..|order| - 1], keys - {order[|order| - 1]})
  {
    var n := |order| - 1;
    forall k
      ensures k in order[..n] <==> k in keys - {order[n]}
    {
      if k in keys && k != order[n] {
        var i :| 0 <= i < |order| && order[i] == k;
        assert order[..n][i] == k;
      }
    }
  }

  lemma {:induction false} HoldsToo(a: map<string, Node>, b: map<string, Node>, params: map<string, string>,
                                    prefix: string,
                                    keys: set<string>, q: seq<string>)
    requires keys <= params.Keys && Holds(a, params, prefix, keys) && Holds(b, params, prefix, keys)
    ensures At(Branch(a), q).Some? ==> At(Branch(a), q) == At(Branch(b), q)
  {
    if At(Branch(a), q).Some? {
      var k :| k in keys && Names(k, prefix, q);
    }
  }

  /** What holds the same parameters is the same trie. */
  lemma {:induction false} HoldsSame(a: map<string, Node>, b: map<string, Node>, params: map<string, string>,
                                     prefix: string, keys: set<string>)
    requires keys <= params.Keys && FullKids(a) && FullKids(b)
    requires Holds(a, params, prefix, keys) && Holds(b, params, prefix, keys)
    ensures a == b
  {
    forall q
      ensures At(Branch(a), q) == At(Branch(b), q)
    {
      HoldsToo(a, b, params, prefix, keys, q);
      HoldsToo(b, a, params, prefix, keys, q);
    }
    SameTrie(a, b);
  }

  // ---- Flattening ----

  lemma {:induction false} ValueOfDecimal(n: nat)
    ensures Value(Decimal(n)) == n
  {
    var digit := ['0' + (n % 10) as char];
    if n < 10 {
      assert digit[..0] == "";
    } else {
      ValueOfDecimal(n / 10);
      var d := Decimal(n / 10) + digit;
      assert d[..|d| - 1] == Decimal(n / 10);
    }
  }

  lemma {:induction false} NumberOfDecimal(n: nat)
    requires n < U64
    ensures ParseU64(Decimal(n)) == Some(n)
  {
    ValueOfDecimal(n);
  }

  /** The names of the positions of a list of `n` items. */
  function Numbers(n: nat): seq<string> {
    seq(n, i requires 0 <= i < n => Decimal(i + 1))
  }

  predicate Distinct(names: seq<string>) {
    forall i, j :: 0 <= i < j < |names| ==> names[i] != names[j]
  }

  lemma {:induction false} NumbersDistinct(n: nat)
    ensures Distinct(Numbers(n))
  {
    forall i, j | 0 <= i < j < n
      ensures Numbers(n)[i] != Numbers(n)[j]
    {
      ValueOfDecimal(i + 1);
      ValueOfDecimal(j + 1);
    }
  }

  function Zip(names: seq<string>, nodes: seq<Node>): map<string, Node>
    requires |names| == |nodes| && Distinct(names)
  {
    map i | 0 <= i < |names| :: names[i] := nodes[i]
  }

  /** The trie of a value: an array's items stand under the list tag, numbered from 1. */
  function Trie(t: Json, tag: string): Node {
    match t
    case Str(s) => Leaf(s)
    case Obj(fields) => Branch(map k | k in fields :: Trie(fields[k], tag))
    case Arr(items) =>
      NumbersDistinct(|items|);
      var nodes := seq(|items|, i requires 0 <= i < |items| => Trie(items[i], tag));
      Branch(map[tag := Branch(Zip(Numbers(|items|), nodes))])
  }

  /** The parameter that carries the text at a path. */
  function Key(prefix: string, p: seq<string>): string {
    if p == [] then prefix else if prefix == "" then Dotted(p) else prefix + "." + Dotted(p)
  }

  ghost predicate Writes(t: Json, tag: string, prefix: string, key: string, p: seq<string>) {
    At(Trie(t, tag), p).Some? && Key(prefix, p) == key
  }

  /** The parameters below the prefix are exactly those of the flattened value; others may be anything. */
  ghost predicate Encodes(params: map<string, string>, prefix: string, tag: string, t: Json) {
    && (forall p :: At(Trie(t, tag), p).Some? ==>
          Key(prefix, p) in params && params[Key(prefix, p)] == At(Trie(t, tag), p).value)
    && (forall key :: key in params && Below(key, prefix).Some? ==> exists p :: Writes(t, tag, prefix, key, p))
  }

  predicate IsTag(k: string) { k == "member" || k == "entry" }

  /** What flattening can express below the root: no empty containers, keys free of dots, not all of them
      numbers, and not a lone list tag. */
  predicate Encodable(t: Json) {
    match t
    case Str(_) => true
    case Arr(items) => items != [] && forall i :: 0 <= i < |items| ==> Encodable(items[i])
    case Obj(fields) =>
      && (exists k :: k in fields && !Numeric(k))
      && (forall k :: k in fields ==> '.' !in k && Encodable(fields[k]))
      && fields.Keys != {"member"} && fields.Keys != {"entry"}
  }

  predicate Survives(t: Json) {
    t == Obj(map[]) || (!t.Str? && Encodable(t))
  }

  /** Array positions fit the numbers keys are read as. */
  predicate Addressable(t: Json) {
    match t
    case Str(_) => true
    case Arr(items) => |items| < U64 && forall i :: 0 <= i < |items| ==> Addressable(items[i])
    case Obj(fields) => forall k :: k in fields ==> Addressable(fields[k])
  }

  predicate Sorted(s: seq<string>) {
    forall i, j :: 0 <= i < j < |s| ==> Before(s[i], s[j])
  }

  /** A sorted list of a set's elements is the order they are put in. */
  lemma {:induction false} OrderedIs(ks: set<string>, s: seq<string>)
    requires Sorted(s) && forall k :: k in s <==> k in ks
    ensures Ordered(ks) == s
    decreases |ks|
  {
    if s == [] {
      if k :| k in ks {
        assert false;
      }
    } else {
      assert s[0] in ks;
      forall x | x in ks && x != s[0]
        ensures Before(s[0], x)
      {
        var i :| 0 <= i < |s| && s[i] == x;
      }
      assert IsLeast(s[0], ks);
      LeastUnique(ks);
      TailElements(ks, s);
      OrderedIs(ks - {s[0]}, s[1..]);
    }
  }

  lemma {:induction false} TailElements(ks: set<string>, s: seq<string>)
    requires s != [] && Sorted(s) && forall k :: k in s <==> k in ks
    ensures Sorted(s[1..]) && forall k :: k in s[1..] <==> k in ks - {s[0]}
  {
    forall k | k in s[1..]
      ensures k != s[0]
    {
      var i :| 1 <= i < |s| && s[i] == k;
      LexTotal(s[0], s[0]);
    }
    forall k | k in ks && k != s[0]
      ensures k in s[1..]
    {
      var i :| 0 <= i < |s| && s[i] == k;
      assert s[1..][i - 1] == k;
    }
  }

  lemma {:induction false} NumbersSorted(n: nat)
    requires n < U64
    ensures Sorted(Numbers(n)) && forall k :: k in Numbers(n) ==> Numeric(k)
  {
    forall i | 0 <= i < n
      ensures ParseU64(Numbers(n)[i]) == Some(i + 1)
    {
      NumberOfDecimal(i + 1);
    }
  }

  lemma {:induction false} ZipKeys(names: seq<string>, nodes: seq<Node>)
    requires |names| == |nodes| && Distinct(names)
    ensures forall k :: k in names <==> k in Zip(names, nodes).Keys
  {
    forall k
      ensures k in names <==> k in Zip(names, nodes).Keys
    {
      if k in names {
        var i :| 0 <= i < |names| && names[i] == k;
      }
    }
  }

  lemma {:induction false} ConvertOrdered(kids: map<string, Node>, names: seq<string>, items: seq<Json>)
    requires IsList(kids) && Ordered(kids.Keys) == names && |names| == |items|
    requires forall i :: 0 <= i < |names| ==> names[i] in kids && Convert(kids[names[i]]) == items[i]
    ensures Convert(Branch(kids)) == Arr(items)
  {
    hide IsList;
    hide Ordered;
    assert Convert(Branch(kids)).items == items;
  }

  /** Branches named by a sorted list of numbers become that list of values. */
  lemma {:induction false} ConvertList(names: seq<string>, nodes: seq<Node>, items: seq<Json>)
    requires |names| == |nodes| == |items| > 0 && Distinct(names) && Sorted(names)
    requires forall i :: 0 <= i < |names| ==> Numeric(names[i])
    requires forall i :: 0 <= i < |names| ==> Convert(nodes[i]) == items[i]
    ensures Convert(Branch(Zip(names, nodes))) == Arr(items)
  {
    hide Numeric;
    hide Before;
    hide Convert;
    hide Ordered;
    var kids := Zip(names, nodes);
    ZipKeys(names, nodes);
    OrderedIs(kids.Keys, names);
    assert names[0] in kids;
    assert IsList(kids);
    ConvertOrdered(kids, names, items);
  }

  lemma {:induction false} ConvertWrapper(tag: string, inner: Node)
    requires IsTag(tag)
    ensures Convert(Branch(map[tag := inner])) == Convert(inner)
  {
    var kids := map[tag := inner];
    assert tag in kids && !Numeric(tag) by { assert !('0' <= tag[0] <= '9'); }
    assert !IsList(kids);
    assert kids.Keys == {tag};
  }

  lemma {:induction false} ConvertArray(items: seq<Json>, tag: string)
    requires IsTag(tag) && 0 < |items| < U64
    requires forall i :: 0 <= i < |items| ==> Convert(Trie(items[i], tag)) == items[i]
    ensures Convert(Trie(Arr(items), tag)) == Arr(items)
  {
    var nodes := seq(|items|, i requires 0 <= i < |items| => Trie(items[i], tag));
    NumbersDistinct(|items|);
    NumbersSorted(|items|);
    ConvertList(Numbers(|items|), nodes, items);
    ConvertWrapper(tag, Branch(Zip(Numbers(|items|), nodes)));
  }

  lemma {:induction false} ConvertTrie(t: Json, tag: string)
    requires IsTag(tag) && Encodable(t) && Addressable(t)
    ensures Convert(Trie(t, tag)) == t
  {
    match t
    case Str(_) =>
    case Arr(items) =>
      forall i | 0 <= i < |items|
        ensures Convert(Trie(items[i], tag)) == items[i]
      {
        ConvertTrie(items[i], tag);
      }
      ConvertArray(items, tag);
    case Obj(fields) =>
      forall k | k in fields
        ensures Convert(Trie(fields[k], tag)) == fields[k]
      {
        ConvertTrie(fields[k], tag);
      }
      assert Trie(t, tag).kids.Keys == fields.Keys;
  }

  // ---- Round trip ----

  /** Every key of the trie is free of dots. */
  predicate Plain(n: Node) {
    n.Branch? ==> forall k :: k in n.kids ==> '.' !in k && Plain(n.kids[k])
  }

  lemma {:induction false} ZipFull(names: seq<string>, nodes: seq<Node>)
    requires |names| == |nodes| > 0 && Distinct(names) && DotFree(names)
    requires forall i :: 0 <= i < |nodes| ==> Full(nodes[i]) && Plain(nodes[i])
    ensures Full(Branch(Zip(names, nodes))) && Plain(Branch(Zip(names, nodes)))
  {
    assert names[0] in Zip(names, nodes);
  }

  lemma {:induction false} ArrayFull(items: seq<Json>, tag: string)
    requires IsTag(tag) && items != []
    requires forall i :: 0 <= i < |items| ==> Full(Trie(items[i], tag)) && Plain(Trie(items[i], tag))
    ensures Full(Trie(Arr(items), tag)) && Plain(Trie(Arr(items), tag))
  {
    var names, nodes := Numbers(|items|), seq(|items|, i requires 0 <= i < |items| => Trie(items[i], tag));
    NumbersDistinct(|items|);
    ZipFull(names, nodes);
    assert '.' !in tag;
    assert tag in map[tag := Branch(Zip(names, nodes))];
  }

  lemma {:induction false} TrieFull(t: Json, tag: string)
    requires IsTag(tag) && Encodable(t)
    ensures Full(Trie(t, tag)) && Plain(Trie(t, tag))
  {
    hide Numeric;
    hide Decimal;
    match t
    case Str(_) =>
    case Arr(items) =>
      forall i | 0 <= i < |items|
        ensures Full(Trie(items[i], tag)) && Plain(Trie(items[i], tag))
      {
        TrieFull(items[i], tag);
      }
      ArrayFull(items, tag);
    case Obj(fields) =>
      forall k | k in fields
        ensures Full(Trie(fields[k], tag)) && Plain(Trie(fields[k], tag))
      {
        TrieFull(fields[k], tag);
      }
      var k :| k in fields && !Numeric(k);
      assert k in Trie(t, tag).kids;
  }

  lemma {:induction false} PlainPath(n: Node, p: seq<string>)
    requires Plain(n) && At(n, p).Some?
    ensures DotFree(p)
    decreases |p|
  {
    if p != [] {
      PlainPath(n.kids[p[0]], p[1..]);
      assert p == [p[0]] + p[1..];
    }
  }

  /** A trie holds no text on the way to another. */
  lemma {:induction false} OnePath(n: Node, p: seq<string>, q: seq<string>)
    requires At(n, p).Some? && At(n, q).Some? && p <= q
    ensures p == q
    decreases |p|
  {
    if p != [] {
      OnePath(n.kids[p[0]], p[1..], q[1..]);
      assert p == [p[0]] + p[1..] && q == [q[0]] + q[1..];
    }
  }

  lemma {:induction false} KeyPath(prefix: string, p: seq<string>)
    requires p != [] && DotFree(p)
    ensures PathOf(Key(prefix, p), prefix) == Some(p)
  {
    SplitDotted(p);
    if prefix != "" {
      assert Key(prefix, p)[|prefix| + 1..] == Dotted(p);
    }
  }

  lemma {:induction false} KeyNames(params: map<string, string>, prefix: string, tag: string, t: Json,
                                    key: string) returns (p: seq<string>)
    requires Encodes(params, prefix, tag, t) && !t.Str? && Plain(Trie(t, tag))
    requires key in params && PathOf(key, prefix).Some?
    ensures PathOf(key, prefix) == Some(p) && At(Trie(t, tag), p) == Some(params[key])
  {
    p :| Writes(t, tag, prefix, key, p);
    PlainPath(Trie(t, tag), p);
    KeyPath(prefix, p);
  }

  lemma {:induction false} EncodesHolds(params: map<string, string>, prefix: string, tag: string, t: Json)
    requires Encodes(params, prefix, tag, t) && !t.Str? && Plain(Trie(t, tag))
    ensures Holds(Trie(t, tag).kids, params, prefix, params.Keys)
    ensures PrefixFree(params.Keys, prefix)
  {
    var n := Trie(t, tag);
    forall k | k in params && PathOf(k, prefix).Some?
      ensures At(n, PathOf(k, prefix).value) == Some(params[k])
    {
      var p := KeyNames(params, prefix, tag, t, k);
    }
    forall q | At(n, q).Some?
      ensures exists k :: k in params && Names(k, prefix, q)
    {
      PlainPath(n, q);
      KeyPath(prefix, q);
      assert Names(Key(prefix, q), prefix, q);
    }
    forall a, b | a in params && b in params && a != b && PathOf(a, prefix).Some? && PathOf(b, prefix).Some?
      ensures !Related(PathOf(a, prefix).value, PathOf(b, prefix).value)
    {
      KeysUnrelated(params, prefix, tag, t, a, b);
    }
  }

  lemma {:induction false} KeysUnrelated(params: map<string, string>, prefix: string, tag: string, t: Json,
                                         a: string, b: string)
    requires Encodes(params, prefix, tag, t) && !t.Str? && Plain(Trie(t, tag))
    requires a in params && b in params && a != b && PathOf(a, prefix).Some? && PathOf(b, prefix).Some?
    ensures !Related(PathOf(a, prefix).value, PathOf(b, prefix).value)
  {
    var p := KeyNames(params, prefix, tag, t, a);
    var q := KeyNames(params, prefix, tag, t, b);
    if p == q {
      PathInjective(a, b, prefix);
    } else if p <= q {
      OnePath(Trie(t, tag), p, q);
    } else if q <= p {
      OnePath(Trie(t, tag), q, p);
    }
  }

  /** The trie built from a flattened value is the value's own, whatever the order. */
  lemma {:induction false} BuildIsTrie(params: map<string, string>, prefix: string, tag: string, t: Json,
                                       order: seq<string>)
    requires IsTag(tag) && Encodes(params, prefix, tag, t) && Visits(order, params.Keys)
    requires Survives(t)
    ensures Branch(Build(params, prefix, order)) == Trie(t, tag)
  {
    if t != Obj(map[]) {
      TrieFull(t, tag);
    }
    EncodesHolds(params, prefix, tag, t);
    BuildFrom(params, prefix, order);
    BuildHolds(params, prefix, order, params.Keys);
    HoldsSame(Build(params, prefix, order), Trie(t, tag).kids, params, prefix, params.Keys);
  }

  lemma {:induction false} InsertPlain(kids: map<string, Node>, p: seq<string>, v: string)
    requires Plain(Branch(kids)) && DotFree(p)
    ensures Plain(Branch(Insert(kids, p, v)))
    decreases |p|
  {
    if |p| > 1 {
      var inner := if p[0] in kids && kids[p[0]].Branch? then kids[p[0]].kids else map[];
      assert p[0] in kids ==> Plain(kids[p[0]]);
      assert Plain(Branch(inner));
      InsertPlain(inner, p[1..], v);
    }
  }

  lemma {:induction false} BuildPlain(params: map<string, string>, prefix: string, order: seq<string>)
    requires forall k :: k in order ==> k in params
    ensures Plain(Branch(Build(params, prefix, order)))
  {
    if order != [] {
      BuildPlain(params, prefix, order[..|order| - 1]);
      var key := order[|order| - 1];
      if PathOf(key, prefix).Some? {
        InsertPlain(Build(params, prefix, order[..|order| - 1]), PathOf(key, prefix).value, params[key]);
      }
    }
  }

  /** Whatever the decoder produces could have been flattened. */
  lemma {:induction false} ConvertEncodable(n: Node)
    requires Full(n) && Plain(n)
    ensures Encodable(Convert(n))
  {
    if n.Branch? {
      forall k | k in n.kids
        ensures Encodable(Convert(n.kids[k]))
      {
        ConvertEncodable(n.kids[k]);
      }
      if IsList(n.kids) {
        OrderedElements(n.kids.Keys);
        var keys := Ordered(n.kids.Keys);
        assert keys != [] by { var k :| k in n.kids; assert k in keys; }
        assert forall i :: 0 <= i < |keys| ==> keys[i] in n.kids;
      } else if n.kids.Keys == {"member"} {
        assert "member" in n.kids;
      } else if n.kids.Keys == {"entry"} {
        assert "entry" in n.kids;
      } else {
        var fields := map k | k in n.kids :: Convert(n.kids[k]);
        var k :| k in n.kids && !Numeric(k);
        assert k in fields;
        assert fields.Keys == n.kids.Keys;
      }
    }
  }

  /** A bare string under the prefix itself is never decoded to a string. */
  lemma {:induction false} StringLost(params: map<string, string>, prefix: string, tag: string, t: Json,
                                      order: seq<string>)
    requires t.Str? && Encodes(params, prefix, tag, t) && Visits(order, params.Keys)
    ensures Convert(Branch(Build(params, prefix, order))) != t
  {
    var kids := Build(params, prefix, order);
    BuildFrom(params, prefix, order);
    forall k | k in kids
      ensures k == ""
    {
      var p := HoldsSome(kids[k]);
      AtKid(kids, k, p);
      var key :| key in order && Names(key, prefix, [k] + p);
      var w :| Writes(t, tag, prefix, key, w);
      assert w == [] && key == prefix == "";
    }
    assert "member" !in kids && "entry" !in kids;
    assert "member" in {"member"} && "entry" in {"entry"};
  }

  /** ROUND TRIP. A flattened value is decoded to itself, for every order of the parameters and whatever other
      parameters there are, exactly when it is the empty object or a container that flattening can express. */
  lemma {:induction false} QueryRoundTrip(params: map<string, string>, prefix: string, tag: string, t: Json,
                                          order: seq<string>)
    requires IsTag(tag) && Encodes(params, prefix, tag, t) && Addressable(t) && Visits(order, params.Keys)
    ensures Convert(Branch(Build(params, prefix, order))) == t <==> Survives(t)
  {
    var kids := Build(params, prefix, order);
    if Survives(t) {
      BuildIsTrie(params, prefix, tag, t, order);
      if t != Obj(map[]) {
        ConvertTrie(t, tag);
      } else {
        assert Trie(t, tag) == Branch(map[]);
      }
    } else if t.Str? {
      StringLost(params, prefix, tag, t, order);
    } else {
      BuildFrom(params, prefix, order);
      BuildPlain(params, prefix, order);
      if kids != map[] {
        ConvertEncodable(Branch(kids));
      }
    }
  }

  // ---- The flattened form itself ----

  /** The paths at which a trie holds a text. */
  function Leaves(n: Node): set<seq<string>> {
    match n
    case Leaf(_) => {[]}
    case Branch(kids) => set k, q | k in kids && q in Leaves(kids[k]) :: [k] + q
  }

  lemma {:induction false} LeavesAt(n: Node, p: seq<string>)
    ensures p in Leaves(n) <==> At(n, p).Some?
    decreases n
  {
    if n.Branch? {
      if p != [] && p[0] in n.kids {
        LeavesAt(n.kids[p[0]], p[1..]);
        assert p == [p[0]] + p[1..];
      }
      if p in Leaves(n) {
        var k, q :| k in n.kids && q in Leaves(n.kids[k]) && p == [k] + q;
        assert p[1..] == q;
      }
    }
  }

  lemma {:induction false} SurvivesPlain(t: Json, tag: string)
    requires IsTag(tag) && Survives(t)
    ensures Plain(Trie(t, tag)) && Trie(t, tag).Branch?
  {
    if t != Obj(map[]) {
      TrieFull(t, tag);
    }
  }

  lemma {:induction false} KeysDistinct(t: Json, tag: string, prefix: string)
    requires IsTag(tag) && Survives(t)
    ensures forall p :: p in Leaves(Trie(t, tag)) ==> At(Trie(t, tag), p).Some? && PathOf(Key(prefix, p), prefix) == Some(p)
  {
    SurvivesPlain(t, tag);
    forall p | p in Leaves(Trie(t, tag))
      ensures At(Trie(t, tag), p).Some? && PathOf(Key(prefix, p), prefix) == Some(p)
    {
      LeavesAt(Trie(t, tag), p);
      PlainPath(Trie(t, tag), p);
      KeyPath(prefix, p);
    }
  }

  /** One parameter for each text in the value. */
  function Flatten(t: Json, tag: string, prefix: string): map<string, string>
    requires IsTag(tag) && Survives(t)
  {
    KeysDistinct(t, tag, prefix);
    map p | p in Leaves(Trie(t, tag)) :: Key(prefix, p) := At(Trie(t, tag), p).value
  }

  lemma {:induction false} FlattenEncodes(t: Json, tag: string, prefix: string)
    requires IsTag(tag) && Survives(t)
    ensures Encodes(Flatten(t, tag, prefix), prefix, tag, t)
  {
    KeysDistinct(t, tag, prefix);
    var n, params := Trie(t, tag), Flatten(t, tag, prefix);
    forall p | At(n, p).Some?
      ensures Key(prefix, p) in params && params[Key(prefix, p)] == At(n, p).value
    {
      LeavesAt(n, p);
    }
    forall key | key in params && Below(key, prefix).Some?
      ensures exists p :: Writes(t, tag, prefix, key, p)
    {
      var p :| p in Leaves(n) && Key(prefix, p) == key;
      assert Writes(t, tag, prefix, key, p);
    }
  }

  /** CODEC. Every value flattening can express comes back from its own flattened form. */
  lemma {:induction false} FlattenDecode(t: Json, tag: string, prefix: string, order: seq<string>)
    requires IsTag(tag) && Survives(t) && Addressable(t)
    requires Visits(order, Flatten(t, tag, prefix).Keys)
    ensures Convert(Branch(Build(Flatten(t, tag, prefix), prefix, order))) == t
  {
    FlattenEncodes(t, tag, prefix);
    QueryRoundTrip(Flatten(t, tag, prefix), prefix, tag, t, order);
  }

  /** An object that comes back as an array: its only key is a number. */
  lemma {:induction false} NumericKeyLost(x: string)
    ensures Trie(Obj(map["1" := Str(x)]), "member") == Branch(map["1" := Leaf(x)])
    ensures Convert(Branch(Build(map["1" := x], "", ["1"]))) == Arr([Str(x)])
  {
    hide Convert;
    hide Ordered;
    hide ParseU64;
    SplitWord("1");
    var params := map["1" := x];
    assert ["1"][..0] == [];
    assert Build(params, "", ["1"]) == map["1" := Leaf(x)];
    assert Decimal(1) == "1";
    NumberOfDecimal(1);
    assert Zip(["1"], [Leaf(x)]) == map["1" := Leaf(x)];
    LeafIsString(x);
    ConvertList(["1"], [Leaf(x)], [Str(x)]);
  }

  lemma {:induction false} LeafIsString(x: string)
    ensures Convert(Leaf(x)) == Str(x)
  {
  }
}
