/** Decoding flattened AWS Query parameters: dotted keys are folded into a trie, one parameter
    at a time in whatever order the table yields them, and the trie is converted to nested JSON. */
module Query {
  import opened Options
  import opened Text

  datatype Node = Leaf(text: string) | Branch(kids: map<string, Node>)

  datatype Json = Str(text: string) | Arr(items: seq<Json>) | Obj(fields: map<string, Json>)

  // ---- Paths ----

  /** `split('.')`: never empty. */
  function Split(s: string): (parts: seq<string>)
    ensures |parts| > 0
    ensures forall i :: 0 <= i < |parts| ==> '.' !in parts[i]
  {
    if s == "" then [""]
    else
      var rest := Split(s[1..]);
      if s[0] == '.' then [""] + rest else [[s[0]] + rest[0]] + rest[1..]
  }

  /** The part of a key below the prefix, if the key lies below it. */
  function Below(key: string, prefix: string): Option<string> {
    if prefix == "" then Some(key)
    else if prefix + "." <= key then Some(key[|prefix| + 1..])
    else None
  }

  // ---- The trie ----

  /** Writes a leaf: it replaces what was at its place, and any leaf on the way to it becomes a branch. */
  function Insert(kids: map<string, Node>, path: seq<string>, value: string): map<string, Node>
    decreases |path|
  {
    if path == [] then kids
    else if |path| == 1 then kids[path[0] := Leaf(value)]
    else
      var inner := if path[0] in kids && kids[path[0]].Branch? then kids[path[0]].kids else map[];
      kids[path[0] := Branch(Insert(inner, path[1..], value))]
  }

  // ---- Numbers as keys ----

  predicate Digits(s: string) {
    s != "" && forall i :: 0 <= i < |s| ==> '0' <= s[i] <= '9'
  }

  function Value(s: string): nat
    requires forall i :: 0 <= i < |s| ==> '0' <= s[i] <= '9'
  {
    if s == "" then 0 else Value(s[..|s| - 1]) * 10 + (s[|s| - 1] as int - '0' as int)
  }

  /** `parse::<u64>()`: digits, with an optional plus sign, in range. */
  function ParseU64(s: string): Option<nat> {
    var digits := if |s| > 1 && s[0] == '+' then s[1..] else s;
    if Digits(digits) && Value(digits) < U64 then Some(Value(digits)) else None
  }

  predicate Numeric(s: string) { ParseU64(s).Some? }

  // ---- Ordering ----

  /** Order of strings by their characters. */
  predicate Lex(a: string, b: string) {
    if b == "" then false
    else if a == "" then true
    else a[0] < b[0] || (a[0] == b[0] && Lex(a[1..], b[1..]))
  }

  function Number(s: string): nat { if Numeric(s) then ParseU64(s).value else 0 }

  /** By number, and among equal numbers in the order the keys are kept in. */
  predicate Before(a: string, b: string) {
    Number(a) < Number(b) || (Number(a) == Number(b) && Lex(a, b))
  }

  lemma {:induction false} LexTotal(a: string, b: string)
    ensures !(Lex(a, b) && Lex(b, a)) && (a != b ==> Lex(a, b) || Lex(b, a)) && !Lex(a, a)
  {
    if a != "" {
      LexTotal(a[1..], a[1..]);
      if b != "" {
        LexTotal(a[1..], b[1..]);
        if a[0] == b[0] {
          assert a == [a[0]] + a[1..] && b == [b[0]] + b[1..];
        }
      }
    }
  }

  lemma {:induction false} LexTrans(a: string, b: string, c: string)
    requires Lex(a, b) && Lex(b, c)
    ensures Lex(a, c)
  {
    if a != "" {
      if a[0] == b[0] == c[0] {
        LexTrans(a[1..], b[1..], c[1..]);
      }
    }
  }

  lemma {:induction false} BeforeTrans(a: string, b: string, c: string)
    requires Before(a, b) && Before(b, c)
    ensures Before(a, c)
  {
    if Number(a) == Number(b) == Number(c) {
      LexTrans(a, b, c);
    }
  }

  predicate IsLeast(k: string, ks: set<string>) {
    k in ks && forall x :: x in ks && x != k ==> Before(k, x)
  }

  lemma {:induction false} LeastExists(ks: set<string>)
    requires ks != {}
    ensures exists k :: IsLeast(k, ks)
    decreases |ks|
  {
    var a :| a in ks;
    if ks == {a} {
      assert IsLeast(a, ks);
    } else {
      LeastExists(ks - {a});
      var b :| IsLeast(b, ks - {a});
      LexTotal(a, b);
      if Before(a, b) {
        forall x | x in ks && x != a
          ensures Before(a, x)
        {
          if x != b {
            BeforeTrans(a, b, x);
          }
        }
        assert IsLeast(a, ks);
      } else {
        assert IsLeast(b, ks);
      }
    }
  }

  lemma {:induction false} LeastUnique(ks: set<string>)
    ensures forall k, k' :: IsLeast(k, ks) && IsLeast(k', ks) ==> k == k'
  {
    forall k, k' | IsLeast(k, ks) && IsLeast(k', ks)
      ensures k == k'
    {
      LexTotal(k, k');
    }
  }

  /** The keys in order. */
  function Ordered(ks: set<string>): (r: seq<string>)
    decreases |ks|
  {
    if ks == {} then []
    else
      LeastExists(ks);
      LeastUnique(ks);
      var k :| IsLeast(k, ks);
      [k] + Ordered(ks - {k})
  }

  lemma {:induction false} OrderedElements(ks: set<string>)
    ensures |Ordered(ks)| == |ks| && forall k :: k in Ordered(ks) <==> k in ks
    decreases |ks|
  {
    if ks != {} {
      LeastExists(ks);
      LeastUnique(ks);
      var k :| IsLeast(k, ks);
      OrderedElements(ks - {k});
      assert Ordered(ks) == [k] + Ordered(ks - {k});
    }
  }

  // ---- Conversion ----

  /** A branch whose keys are all numbers. */
  predicate IsList(kids: map<string, Node>) {
    kids != map[] && forall k :: k in kids ==> Numeric(k)
  }

  /** Branches with only numbers become arrays in the order of the numbers; a lone `member` or `entry` is a
      wrapper and disappears; everything else is an object. */
  function Convert(n: Node): Json
  {
    match n
    case Leaf(s) => Str(s)
    case Branch(kids) =>
      if IsList(kids) then
        OrderedElements(kids.Keys);
        var keys := Ordered(kids.Keys);
        Arr(seq(|keys|, i requires 0 <= i < |keys| => assert keys[i] in kids; Convert(kids[keys[i]])))
      else if kids.Keys == {"member"} then Convert(kids["member"])
      else if kids.Keys == {"entry"} then Convert(kids["entry"])
      else Obj(map k | k in kids :: Convert(kids[k]))
  }

  // ---- The decoder ----

  /** The trie built from the parameters in the given order. */
  function Build(params: map<string, string>, prefix: string, order: seq<string>): map<string, Node>
    requires forall k :: k in order ==> k in params
  {
    if order == [] then map[]
    else
      var kids := Build(params, prefix, order[..|order| - 1]);
      var key := order[|order| - 1];
      var rest := Below(key, prefix);
      if rest.None? then kids else Insert(kids, Split(rest.value), params[key])
  }

  /** An order of visiting a set of keys: each exactly once. */
  ghost predicate Visits(order: seq<string>, keys: set<string>) {
    && (forall k :: k in order <==> k in keys)
    && forall i, j :: 0 <= i < j < |order| ==> order[i] != order[j]
  }

  /** `query_to_json`: visits the parameters in an order nobody controls. */
  method QueryToJson(params: map<string, string>, prefix: string) returns (json: Json)
    ensures exists order :: Visits(order, params.Keys) && json == Convert(Branch(Build(params, prefix, order)))
  {
    ghost var order: seq<string> := [];
    var root: map<string, Node> := map[];
    var remaining := params.Keys;
    while remaining != {}
      invariant remaining <= params.Keys && Visits(order, params.Keys - remaining)
      invariant root == Build(params, prefix, order)
      decreases |remaining|
    {
      var k :| k in remaining;
      var rest := Below(k, prefix);
      if rest.Some? {
        root := Insert(root, Split(rest.value), params[k]);
      }
      assert (order + [k])[..|order|] == order;
      order := order + [k];
      remaining := remaining - {k};
    }
    json := Convert(Branch(root));
  }
}
