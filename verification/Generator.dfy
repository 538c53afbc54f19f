/** Deterministic fake data for the Bedrock simulator: an FNV-1a seed picks every choice. */
module Generator {
  import opened Options
  import opened Text
  import opened Utf8

  datatype Value =
    | Null
    | Bool(b: bool)
    | Integer(n: int)
    | Float(x: real)
    | String(s: string)
    | Array(items: seq<Value>)
    | Object(fields: map<string, Value>)

  const LIPSUM := [
    "lorem", "ipsum", "dolor", "sit", "amet", "consectetur", "adipiscing", "elit", "sed", "do", "eiusmod", "tempor",
    "incididunt", "ut", "labore", "et", "dolore", "magna", "aliqua", "enim", "ad", "minim", "veniam", "quis", "nostrud",
    "exercitation", "ullamco", "laboris", "nisi", "aliquip", "ex", "ea", "commodo", "consequat"]

  const FLOATS := [0.42, 0.73, 0.17, 0.85, 0.61, 0.33, 0.94, 0.28, 0.55, 0.79]

  const INTEGERS := [1, 7, 42, 13, 99, 5, 28, 64, 3, 17]

  // ---- Seeds ----

  const OFFSET: nat := 14695981039346656037
  const PRIME: nat := 1099511628211

  function XorByte(a: Byte, b: Byte): (c: Byte) {
    ((a as bv8) ^ (b as bv8)) as int
  }

  /** One FNV-1a step in 64-bit arithmetic: the byte changes the low bits, the product wraps around. */
  function Mix(hash: nat, b: Byte): nat {
    (hash - hash % 256 + XorByte(hash % 256, b)) * PRIME % U64
  }

  /** FNV-1a: the hash of all but the last byte, mixed with the last. */
  function Fnv(bytes: Bytes): nat {
    if bytes == [] then OFFSET else Mix(Fnv(bytes[..|bytes| - 1]), bytes[|bytes| - 1])
  }

  function SeedInput(model: string, path: string, count: nat): Bytes {
    Encode(model + ":" + path + ":" + Decimal(count))
  }

  function Seed(model: string, path: string, count: nat): nat { Fnv(SeedInput(model, path, count)) }

  method ComputeSeed(model: string, path: string, count: nat) returns (hash: nat)
    ensures hash == Seed(model, path, count)
  {
    hash := HashBytes(SeedInput(model, path, count));
  }

  method HashBytes(input: Bytes) returns (hash: nat)
    ensures hash == Fnv(input)
  {
    hash := OFFSET;
    var i := 0;
    while i < |input|
      invariant 0 <= i <= |input|
      invariant hash == Fnv(input[..i])
    {
      assert input[..i + 1][..i] == input[..i];
      hash := hash - hash % 256 + XorByte(hash % 256, input[i]);
      hash := hash * PRIME % U64;
      i := i + 1;
    }
    assert input[..i] == input;
  }

  lemma {:induction false} MixA()
    ensures OFFSET % 256 == 37 && XorByte(37, 97) == 68
    ensures (OFFSET - 37 + 68) * PRIME % U64 == 0xAF63_DC4C_8601_EC8C
  {
    assert (37 as bv8) ^ (97 as bv8) == 68 as bv8;
  }

  /** The published hash of the one letter `a`. */
  lemma {:induction false} HashOfA()
    ensures Fnv([97]) == 0xAF63_DC4C_8601_EC8C
  {
    hide XorByte;
    MixA();
    assert [97][..0] == [] && Fnv([]) == OFFSET;
  }

  function Pick<T>(choices: seq<T>, seed: nat): (x: T)
    requires choices != []
    ensures x in choices
  {
    choices[seed % |choices|]
  }

  // ---- Text ----

  datatype TextConfig = TextConfig(minWords: nat, maxWords: nat)

  const DEFAULT_TEXT := TextConfig(5, 15)

  /** The range of word counts is not upside down; the source's unsigned subtraction needs this. */
  predicate Sensible(cfg: TextConfig) { cfg.minWords <= cfg.maxWords }

  function WordCount(model: string, count: nat, cfg: TextConfig): nat
    requires Sensible(cfg)
  {
    var range := cfg.maxWords - cfg.minWords + 1;
    cfg.minWords + Seed(model, "text", count) % (if range > 1 then range else 1)
  }

  function TextWords(model: string, count: nat, n: nat): seq<string> {
    seq(n, i requires 0 <= i < n => Pick(LIPSUM, Seed(model, "text.word." + Decimal(i), count)))
  }

  function GenerateText(model: string, count: nat, cfg: TextConfig): string
    requires Sensible(cfg)
  {
    Join(TextWords(model, count, WordCount(model, count, cfg)))
  }

  // ---- Schemas ----

  /** The type of a schema node; anything unknown is generated as a string. */
  datatype Kind = ObjectKind | ArrayKind | NumberKind | IntegerKind | BooleanKind | OtherKind

  datatype Schema = Schema(kind: Kind, properties: map<string, Schema>, items: Option<Schema>, choices: Option<seq<Value>>)

  function Scalar(kind: Kind, seed: nat): Value {
    match kind
    case NumberKind => Float(Pick(FLOATS, seed))
    case IntegerKind => Integer(Pick(INTEGERS, seed))
    case BooleanKind => Bool(seed % 2 == 0)
    case _ => String(Pick(LIPSUM, seed))
  }

  function ChildPath(path: string, key: string): string { if path == "" then key else path + "." + key }

  function ItemPath(path: string, i: nat): string { path + "[" + Decimal(i) + "]" }

  function Generate(schema: Schema, model: string, count: nat, path: string): Value
    decreases schema
  {
    if schema.choices.Some? && schema.choices.value != [] then
      Pick(schema.choices.value, Seed(model, path, count))
    else if schema.kind == ObjectKind then
      Object(map k | k in schema.properties :: Generate(schema.properties[k], model, count, ChildPath(path, k)))
    else if schema.kind == ArrayKind then
      var n := 1 + Seed(model, path + ".len", count) % 3;
      Array(seq(n, i requires 0 <= i < n => ItemAt(schema.items, model, count, path, i)))
    else Scalar(schema.kind, Seed(model, path, count))
  }

  /** An array item; without an item schema, a string. */
  function GenerateItem(items: Option<Schema>, model: string, count: nat, path: string): Value
    decreases items, 0
  {
    match items
    case None => Scalar(OtherKind, Seed(model, path, count))
    case Some(s) => Generate(s, model, count, path)
  }

  function ItemAt(items: Option<Schema>, model: string, count: nat, path: string, i: nat): Value
    decreases items, 1
  {
    GenerateItem(items, model, count, ItemPath(path, i))
  }

  /** `generate_from_schema`, filling the object property by property and the array item by item. */
  method GenerateFromSchema(schema: Schema, model: string, count: nat, path: string) returns (v: Value)
    ensures v == Generate(schema, model, count, path)
    decreases schema
  {
    if schema.choices.Some? && schema.choices.value != [] {
      var seed := ComputeSeed(model, path, count);
      return Pick(schema.choices.value, seed);
    }
    match schema.kind {
      case ObjectKind =>
        var fields := FillObject(schema, model, count, path);
        v := Object(fields);
      case ArrayKind =>
        var items := FillArray(schema, model, count, path);
        v := Array(items);
      case _ =>
        var seed := ComputeSeed(model, path, count);
        v := Scalar(schema.kind, seed);
    }
  }

  method FillObject(schema: Schema, model: string, count: nat, path: string) returns (fields: map<string, Value>)
    ensures fields == map k | k in schema.properties :: Generate(schema.properties[k], model, count, ChildPath(path, k))
    decreases schema, 0
  {
    fields := map[];
    var keys := schema.properties.Keys;
    while keys != {}
      invariant keys <= schema.properties.Keys && fields.Keys == schema.properties.Keys - keys
      invariant forall k :: k in fields ==> fields[k] == Generate(schema.properties[k], model, count, ChildPath(path, k))
      decreases |keys|
    {
      var k :| k in keys;
      var v := GenerateFromSchema(schema.properties[k], model, count, ChildPath(path, k));
      fields := fields[k := v];
      keys := keys - {k};
    }
  }

  method FillArray(schema: Schema, model: string, count: nat, path: string) returns (items: seq<Value>)
    ensures var n := 1 + Seed(model, path + ".len", count) % 3;
            |items| == n && forall i :: 0 <= i < n ==> items[i] == ItemAt(schema.items, model, count, path, i)
    decreases schema, 0
  {
    hide Seed;
    hide ItemAt;
    var seed := ComputeSeed(model, path + ".len", count);
    var n := 1 + seed % 3;
    items := [];
    while |items| < n
      invariant |items| <= n
      invariant forall i :: 0 <= i < |items| ==> items[i] == ItemAt(schema.items, model, count, path, i)
    {
      var v := MakeItem(schema.items, model, count, path, |items|);
      items := items + [v];
    }
  }

  method MakeItem(items: Option<Schema>, model: string, count: nat, path: string, i: nat) returns (v: Value)
    ensures v == ItemAt(items, model, count, path, i)
    decreases items
  {
    var at := ItemPath(path, i);
    match items {
      case None =>
        var seed := ComputeSeed(model, at, count);
        v := Scalar(OtherKind, seed);
      case Some(s) => v := GenerateFromSchema(s, model, count, at);
    }
  }

  // ---- What generation promises ----

  /** A value of the schema, recursively. */
  predicate Conforms(v: Value, schema: Schema)
    decreases schema
  {
    if schema.choices.Some? && schema.choices.value != [] then v in schema.choices.value
    else match schema.kind
      case ObjectKind =>
        && v.Object? && v.fields.Keys == schema.properties.Keys
        && forall k :: k in schema.properties ==> k in v.fields && Conforms(v.fields[k], schema.properties[k])
      case ArrayKind =>
        && v.Array? && 1 <= |v.items| <= 3
        && forall i :: 0 <= i < |v.items| ==> ItemConforms(v.items[i], schema.items)
      case NumberKind => v.Float? && v.x in FLOATS
      case IntegerKind => v.Integer? && v.n in INTEGERS
      case BooleanKind => v.Bool?
      case OtherKind => v.String? && v.s in LIPSUM
  }

  predicate ItemConforms(v: Value, items: Option<Schema>)
    decreases items
  {
    match items
    case None => v.String? && v.s in LIPSUM
    case Some(s) => Conforms(v, s)
  }

  /** SCHEMA. Whatever the nested schema, the generated value conforms to it at every level. */
  lemma {:induction false} GenerateConforms(schema: Schema, model: string, count: nat, path: string)
    ensures Conforms(Generate(schema, model, count, path), schema)
    decreases schema
  {
    if schema.choices.Some? && schema.choices.value != [] {
    } else if schema.kind == ObjectKind {
      forall k | k in schema.properties
        ensures Conforms(Generate(schema.properties[k], model, count, ChildPath(path, k)), schema.properties[k])
      {
        GenerateConforms(schema.properties[k], model, count, ChildPath(path, k));
      }
    } else if schema.kind == ArrayKind {
      forall i: nat
        ensures ItemConforms(ItemAt(schema.items, model, count, path, i), schema.items)
      {
        ItemGenerated(schema.items, model, count, ItemPath(path, i));
      }
    }
  }

  lemma {:induction false} ItemGenerated(items: Option<Schema>, model: string, count: nat, path: string)
    ensures ItemConforms(GenerateItem(items, model, count, path), items)
    decreases items
  {
    if items.Some? {
      GenerateConforms(items.value, model, count, path);
    }
  }

  lemma {:induction false} LipsumClean()
    ensures AllClean(LIPSUM)
  {
    FirstWordsClean();
    LastWordsClean();
  }

  lemma {:induction false} FirstWordsClean()
    ensures forall i :: 0 <= i < 17 ==> Clean(LIPSUM[i])
  {
  }

  lemma {:induction false} LastWordsClean()
    ensures forall i :: 17 <= i < |LIPSUM| ==> Clean(LIPSUM[i])
  {
  }

  /** The text a model gives for its `count`-th request: as many words as the request's seed says, within the bounds,
      each drawn from the list by a seed of its own, with single spaces between. */
  ghost predicate IsText(text: string, model: string, count: nat, min: nat, max: nat)
    requires min <= max
  {
    var ws := Words(text);
    && text == Join(ws) && |ws| == min + Seed(model, "text", count) % (max - min + 1)
    && forall i :: 0 <= i < |ws| ==> ws[i] == LIPSUM[Seed(model, "text.word." + Decimal(i), count) % |LIPSUM|]
  }

  /** TEXT. Generated text splits into exactly the words that were drawn, between the configured bounds, all from the
      list. */
  lemma {:induction false} GenerateTextWords(model: string, count: nat, cfg: TextConfig)
    requires Sensible(cfg)
    ensures IsText(GenerateText(model, count, cfg), model, count, cfg.minWords, cfg.maxWords)
    ensures var ws := Words(GenerateText(model, count, cfg));
            && cfg.minWords <= |ws| <= cfg.maxWords
            && forall i :: 0 <= i < |ws| ==> ws[i] in LIPSUM
  {
    hide Seed;
    hide Words;
    hide Join;
    var ws := TextWords(model, count, WordCount(model, count, cfg));
    LipsumClean();
    assert forall i :: 0 <= i < |ws| ==> ws[i] in LIPSUM;
    WordsOfJoin(ws);
  }
}
