/** The Bedrock scenario engine: per-model request counters and the prioritised choice of a response. */
module Bedrock {
  import opened Options
  import opened Generator

  // ---- Configuration ----

  datatype ErrorEntry = ErrorEntry(kind: string, message: string)

  /** An error injected into every `every`-th request; never when `every` is 0. */
  datatype Injection = Injection(every: nat, error: ErrorEntry)

  datatype Response = Response(payload: Option<Value>, text: Option<TextConfig>, error: Option<ErrorEntry>)

  datatype Rule = Rule(needle: Option<string>, response: Option<Response>, error: Option<ErrorEntry>)

  datatype Sequence = Sequence(cycle: bool, responses: seq<Response>)

  datatype Mode = TextMode | SchemaMode | StaticMode

  datatype Streaming = Streaming(enabled: bool)

  datatype Latency = Latency(minMs: nat, maxMs: nat)

  datatype Model = Model(
    mode: Mode,
    payload: Option<Value>,
    schema: Option<Schema>,
    text: Option<TextConfig>,
    sequence: Option<Sequence>,
    rules: seq<Rule>,
    injections: seq<Injection>,
    streaming: Option<Streaming>,
    latency: Option<Latency>)

  datatype Config = Config(defaultMode: Mode, defaultLatency: Option<Latency>, models: map<string, Model>)
  {
    /** A model without an entry of its own has the default mode and latency and nothing else. */
    function ModelFor(id: string): Model {
      if id in models then models[id]
      else Model(defaultMode, None, None, None, None, [], [], None, defaultLatency)
    }
  }

  function TextFor(t: Option<TextConfig>): TextConfig { if t.Some? then t.value else DEFAULT_TEXT }

  /** The response draws no text, or from a range of word counts that is in order. */
  predicate SensibleResponse(r: Response) {
    r.error.Some? || r.payload.Some? || Sensible(TextFor(r.text))
  }

  predicate SensibleModel(m: Model) {
    && (m.mode == TextMode ==> Sensible(TextFor(m.text)))
    && (forall i :: 0 <= i < |m.rules| && m.rules[i].response.Some? ==> SensibleResponse(m.rules[i].response.value))
    && (m.sequence.Some? ==>
          forall i :: 0 <= i < |m.sequence.value.responses| ==> SensibleResponse(m.sequence.value.responses[i]))
  }

  predicate SensibleConfig(c: Config) { forall id :: id in c.models ==> SensibleModel(c.models[id]) }

  // ---- Outcomes ----

  datatype Outcome = Error(error: ErrorEntry) | Json(value: Value) | Plain(text: string)

  datatype Source = FromInjection | FromRuleError | FromRule | FromSequence(index: nat) | FromSchema | FromStatic | FromText

  datatype Resolved = Resolved(count: nat, source: Source, outcome: Outcome, streaming: bool, latency: Option<Latency>)

  // ---- The choice ----

  predicate Hits(inj: Injection, n: nat) { inj.every > 0 && n % inj.every == 0 }

  function FirstHit(injections: seq<Injection>, n: nat): (r: Option<nat>)
    ensures r.Some? ==> r.value < |injections| && Hits(injections[r.value], n)
                        && forall i :: 0 <= i < r.value ==> !Hits(injections[i], n)
    ensures r.None? ==> forall i :: 0 <= i < |injections| ==> !Hits(injections[i], n)
  {
    if injections == [] then None
    else if Hits(injections[0], n) then Some(0)
    else
      var r := FirstHit(injections[1..], n);
      if r.None? then None else Some(r.value + 1)
  }

  predicate OccursAt(text: string, needle: string, i: nat) {
    i + |needle| <= |text| && text[i..i + |needle|] == needle
  }

  predicate Contains(text: string, needle: string) {
    exists i :: 0 <= i <= |text| && OccursAt(text, needle, i)
  }

  /** The rule matches the lower-cased prompt and has an error or a response to give. */
  predicate Decides(rule: Rule, prompt: string) {
    rule.needle.Some? && Contains(prompt, rule.needle.value) && (rule.error.Some? || rule.response.Some?)
  }

  function FirstRule(rules: seq<Rule>, prompt: string): (r: Option<nat>)
    ensures r.Some? ==> r.value < |rules| && Decides(rules[r.value], prompt)
                        && forall i :: 0 <= i < r.value ==> !Decides(rules[i], prompt)
    ensures r.None? ==> forall i :: 0 <= i < |rules| ==> !Decides(rules[i], prompt)
  {
    if rules == [] then None
    else if Decides(rules[0], prompt) then Some(0)
    else
      var r := FirstRule(rules[1..], prompt);
      if r.None? then None else Some(r.value + 1)
  }

  /** Which entry of a response list serves the `n`-th request: in turn for ever, or in turn and then the last. */
  function SequenceIndex(s: Sequence, n: nat): (i: nat)
    requires s.responses != [] && n > 0
    ensures i < |s.responses|
  {
    if s.cycle then (n - 1) % |s.responses|
    else if n - 1 < |s.responses| - 1 then n - 1 else |s.responses| - 1
  }

  function Answer(r: Response, id: string, n: nat): Outcome
    requires SensibleResponse(r)
  {
    if r.error.Some? then Error(r.error.value)
    else if r.payload.Some? then Json(r.payload.value)
    else Plain(GenerateText(id, n, TextFor(r.text)))
  }

  function Fallback(m: Model, id: string, n: nat): (r: (Source, Outcome))
    requires SensibleModel(m)
    ensures r.0.FromSchema? || r.0.FromStatic? || r.0.FromText?
  {
    match m.mode
    case SchemaMode =>
      var schema := if m.schema.Some? then m.schema.value else Schema(OtherKind, map[], None, None);
      (FromSchema, Json(Generate(schema, id, n, "")))
    case StaticMode => (FromStatic, Json(if m.payload.Some? then m.payload.value else Null))
    case TextMode => (FromText, Plain(GenerateText(id, n, TextFor(m.text))))
  }

  function Choose(m: Model, id: string, prompt: string, n: nat): (Source, Outcome)
    requires SensibleModel(m) && n > 0
  {
    var hit, rule := FirstHit(m.injections, n), FirstRule(m.rules, prompt);
    if hit.Some? then (FromInjection, Error(m.injections[hit.value].error))
    else if rule.Some? then
      var r := m.rules[rule.value];
      if r.error.Some? then (FromRuleError, Error(r.error.value)) else (FromRule, Answer(r.response.value, id, n))
    else if m.sequence.Some? && m.sequence.value.responses != [] then
      var i := SequenceIndex(m.sequence.value, n);
      (FromSequence(i), Answer(m.sequence.value.responses[i], id, n))
    else Fallback(m, id, n)
  }

  /** The response to the `n`-th request for a model. */
  function ResolveAt(c: Config, id: string, prompt: string, n: nat): Resolved
    requires SensibleConfig(c) && n > 0
  {
    var m := c.ModelFor(id);
    var (source, outcome) := Choose(m, id, prompt, n);
    Resolved(n, source, outcome, m.streaming.Some? && m.streaming.value.enabled, m.latency)
  }

  // ---- The engine ----

  class State {
    const config: Config
    var counters: map<string, nat>

    ghost function Count(id: string): nat
      reads this
    {
      if id in counters then counters[id] else 0
    }

    constructor (c: Config)
      ensures config == c && counters == map[]
    {
      config, counters := c, map[];
    }

    /** Counts one more request and returns the new count. */
    method Increment(id: string) returns (n: nat)
      modifies this
      ensures n == old(Count(id)) + 1 && counters == old(counters)[id := n]
    {
      if id !in counters {
        counters := counters[id := 0];
      }
      counters := counters[id := counters[id] + 1];
      n := counters[id];
    }

    method GetCount(id: string) returns (n: nat)
      ensures n == Count(id)
    {
      n := if id in counters then counters[id] else 0;
    }

    /** Forgets one model's count, or all. */
    method Reset(id: Option<string>)
      modifies this
      ensures counters == if id.Some? then old(counters) - {id.value} else map[]
    {
      match id {
        case None => counters := map[];
        case Some(i) => counters := counters - {i};
      }
    }

    /** `resolve`: counts the request, then scans the configuration for the first thing that applies. */
    method Resolve(id: string, prompt: string) returns (r: Resolved)
      requires SensibleConfig(config)
      modifies this
      ensures counters == old(counters)[id := old(Count(id)) + 1]
      ensures r == ResolveAt(config, id, prompt, old(Count(id)) + 1)
    {
      var m := config.ModelFor(id);
      var n := Increment(id);
      var streaming := m.streaming.Some? && m.streaming.value.enabled;
      var source, outcome := Scan(m, id, prompt, n);
      r := Resolved(n, source, outcome, streaming, m.latency);
    }
  }

  method Scan(m: Model, id: string, prompt: string, n: nat) returns (source: Source, outcome: Outcome)
    requires SensibleModel(m) && n > 0
    ensures (source, outcome) == Choose(m, id, prompt, n)
  {
    var i := 0;
    while i < |m.injections|
      invariant 0 <= i <= |m.injections|
      invariant forall j :: 0 <= j < i ==> !Hits(m.injections[j], n)
    {
      if m.injections[i].every > 0 && n % m.injections[i].every == 0 {
        return FromInjection, Error(m.injections[i].error);
      }
      i := i + 1;
    }
    i := 0;
    while i < |m.rules|
      invariant 0 <= i <= |m.rules|
      invariant forall j :: 0 <= j < i ==> !Decides(m.rules[j], prompt)
    {
      var rule := m.rules[i];
      if rule.needle.Some? && Contains(prompt, rule.needle.value) {
        if rule.error.Some? {
          return FromRuleError, Error(rule.error.value);
        }
        if rule.response.Some? {
          return FromRule, Answer(rule.response.value, id, n);
        }
      }
      i := i + 1;
    }
    if m.sequence.Some? && m.sequence.value.responses != [] {
      var s := m.sequence.value;
      var k := SequenceIndex(s, n);
      return FromSequence(k), Answer(s.responses[k], id, n);
    }
    var (src, out) := Fallback(m, id, n);
    source, outcome := src, out;
  }
}
