/** What the scenario engine promises over any interleaving of requests to many models. */
module BedrockTheorems {
  import opened Options
  import opened Text
  import opened Generator
  import opened Bedrock

  // ---- Runs ----

  datatype Call = Invoke(id: string, prompt: string) | Peek(id: string) | Forget(which: Option<string>)

  /** What a call returns. */
  datatype Served = Resolution(resolved: Resolved) | Count(n: nat) | Cleared

  function CountersAfter(counters: map<string, nat>, c: Call): map<string, nat> {
    match c
    case Invoke(id, _) => counters[id := (if id in counters then counters[id] else 0) + 1]
    case Peek(_) => counters
    case Forget(which) => if which.Some? then counters - {which.value} else map[]
  }

  function Counters(calls: seq<Call>): map<string, nat> {
    if calls == [] then map[] else CountersAfter(Counters(calls[..|calls| - 1]), calls[|calls| - 1])
  }

  /** The model's own configuration; one without an entry has the default mode and latency and nothing else. */
  predicate IsModel(c: Config, id: string, m: Model) {
    if id in c.models then m == c.models[id]
    else m.mode == c.defaultMode && m.latency == c.defaultLatency && m.streaming.None? && m.injections == [] && m.rules == []
         && m.sequence.None? && m.payload.None? && m.schema.None? && m.text.None?
  }

  /** The answer to the `n`-th request for a model, by position alone: the first injection whose period divides `n`;
      else the first rule that matches and has something to give, its error before its response; else entry number
      `n - 1` of the response list, modulo its length or no further than its last; else what the model's mode gives.
      Streaming and latency are the model's own. */
  ghost predicate Answered(c: Config, id: string, prompt: string, n: nat, r: Resolved)
    requires SensibleConfig(c) && n > 0
  {
    var m := c.ModelFor(id);
    && IsModel(c, id, m)
    && r.count == n && r.latency == m.latency && (r.streaming <==> m.streaming.Some? && m.streaming.value.enabled)
    && (r.source.FromInjection? <==> Hit(m, n))
    && (forall i: nat :: HitBy(m, n, i) ==> r.outcome == Error(m.injections[i].error))
    && (r.source.FromRuleError? || r.source.FromRule? <==> !Hit(m, n) && Decided(m, prompt))
    && (forall i: nat :: !Hit(m, n) && DecidedBy(m, prompt, i) ==> RuleGives(m.rules[i], id, n, r))
    && (r.source.FromSequence? <==> !Hit(m, n) && !Decided(m, prompt) && HasSequence(m))
    && (r.source.FromSequence? ==> ListGives(m.sequence.value, id, n, r))
    && (!Hit(m, n) && !Decided(m, prompt) && !HasSequence(m) ==> ModeGives(m, id, n, r))
  }

  /** A sequence of calls through the engine itself, with what each returned. */
  method Serve(s: State, calls: seq<Call>) returns (served: seq<Served>)
    requires SensibleConfig(s.config) && s.counters == map[]
    modifies s
    ensures s.counters == Counters(calls) && |served| == |calls|
    ensures forall i :: 0 <= i < |calls| ==> Right(s.config, calls, i, served[i])
  {
    hide Right;
    served := [];
    while |served| < |calls|
      invariant |served| <= |calls| && s.counters == Counters(calls[..|served|])
      invariant forall i :: 0 <= i < |served| ==> Right(s.config, calls, i, served[i])
    {
      var r := ServeOne(s, calls, |served|);
      served := served + [r];
    }
    assert calls[..|served|] == calls;
  }

  /** What the `i`-th call returns is right: answered by the call's position among the calls to its model since the
      model's last reset, or the number of those. */
  ghost predicate Right(c: Config, calls: seq<Call>, i: nat, r: Served)
    requires SensibleConfig(c) && i < |calls|
  {
    match calls[i]
    case Invoke(id, prompt) => r.Resolution? && Answered(c, id, prompt, Nth(calls, i), r.resolved)
    case Peek(id) => r == Count(Since(calls[..i], id))
    case Forget(_) => r == Cleared
  }

  method ServeOne(s: State, calls: seq<Call>, i: nat) returns (r: Served)
    requires SensibleConfig(s.config) && i < |calls| && s.counters == Counters(calls[..i])
    modifies s
    ensures s.counters == Counters(calls[..i + 1]) && Right(s.config, calls, i, r)
  {
    hide Since;
    hide Answered;
    hide ResolveAt;
    assert calls[..i + 1][..i] == calls[..i];
    match calls[i] {
      case Invoke(id, prompt) =>
        CountIsSince(calls[..i], id);
        ResolveAnswers(s.config, id, prompt, Nth(calls, i));
        var resolved := s.Resolve(id, prompt);
        r := Resolution(resolved);
      case Peek(id) =>
        CountIsSince(calls[..i], id);
        var n := s.GetCount(id);
        r := Count(n);
      case Forget(which) =>
        s.Reset(which);
        r := Cleared;
    }
  }

  // ---- The count is the position ----

  predicate Resets(c: Call, id: string) { c.Forget? && (c.which.None? || c.which.value == id) }

  /** The `i`-th call is to this model, and no reset of the model follows it. */
  ghost predicate Counts(calls: seq<Call>, id: string, i: nat) {
    && i < |calls| && calls[i].Invoke? && calls[i].id == id
    && forall j :: i < j < |calls| ==> !Resets(calls[j], id)
  }

  /** Requests for one model since it was last reset. */
  ghost function Since(calls: seq<Call>, id: string): nat {
    |set i | 0 <= i < |calls| && Counts(calls, id, i)|
  }

  lemma {:induction false} CountsStep(calls: seq<Call>, c: Call, id: string, i: nat)
    ensures Counts(calls + [c], id, i)
       <==> if i == |calls| then c.Invoke? && c.id == id else Counts(calls, id, i) && !Resets(c, id)
  {
    var calls' := calls + [c];
    assert calls'[|calls|] == c;
    assert forall j :: 0 <= j < |calls| ==> calls'[j] == calls[j];
  }

  lemma {:induction false} SinceStart(calls: seq<Call>, id: string)
    ensures (forall i: nat :: !Counts(calls, id, i)) ==> Since(calls, id) == 0
  {
    var counted := set i | 0 <= i < |calls| && Counts(calls, id, i);
    if forall i: nat :: !Counts(calls, id, i) {
      assert counted == {};
    }
  }

  lemma {:induction false} SinceStep(calls: seq<Call>, c: Call, id: string)
    ensures Since(calls + [c], id)
         == if Resets(c, id) then 0 else Since(calls, id) + if c.Invoke? && c.id == id then 1 else 0
  {
    var n, calls' := |calls|, calls + [c];
    forall i: nat
      ensures Counts(calls', id, i) <==> if i == n then c.Invoke? && c.id == id else Counts(calls, id, i) && !Resets(c, id)
    {
      CountsStep(calls, c, id, i);
    }
    var before := set i | 0 <= i < |calls| && Counts(calls, id, i);
    var after := set i | 0 <= i < |calls'| && Counts(calls', id, i);
    assert after == if Resets(c, id) then {} else before + if c.Invoke? && c.id == id then {n} else {};
  }

  /** The position of a call among the calls to its model since the model's last reset, from 1. */
  ghost function Nth(calls: seq<Call>, i: nat): (n: nat)
    requires i < |calls| && calls[i].Invoke?
    ensures n > 0
  {
    Since(calls[..i], calls[i].id) + 1
  }

  lemma {:induction false} CountIsSince(calls: seq<Call>, id: string)
    ensures (if id in Counters(calls) then Counters(calls)[id] else 0) == Since(calls, id)
  {
    if calls == [] {
      SinceStart(calls, id);
    } else {
      var front, last := calls[..|calls| - 1], calls[|calls| - 1];
      CountIsSince(front, id);
      SinceStep(front, last, id);
      assert calls == front + [last];
    }
  }

  /** Calls to other models, and resets of them, do not move a model's position. */
  lemma {:induction false} OthersDoNotCount(calls: seq<Call>, c: Call, id: string)
    requires (c.Invoke? && c.id != id) || (c.Forget? && c.which.Some? && c.which.value != id)
    ensures Since(calls + [c], id) == Since(calls, id)
  {
    SinceStep(calls, c, id);
  }

  // ---- What a position decides ----

  /** Some injection's period divides the position. */
  ghost predicate Hit(m: Model, n: nat) {
    exists i :: 0 <= i < |m.injections| && Hits(m.injections[i], n)
  }

  /** The first injection whose period divides the position. */
  ghost predicate HitBy(m: Model, n: nat, i: nat) {
    i < |m.injections| && Hits(m.injections[i], n) && forall j :: 0 <= j < i ==> !Hits(m.injections[j], n)
  }

  predicate InThree(text: string, before: string, needle: string, behind: string) { text == before + needle + behind }

  /** The rule's text is somewhere in the prompt, and it has something to give. */
  ghost predicate Matches(rule: Rule, prompt: string) {
    && rule.needle.Some? && (rule.error.Some? || rule.response.Some?)
    && exists before, behind :: InThree(prompt, before, rule.needle.value, behind)
  }

  lemma {:induction false} DecidesIsMatches(rule: Rule, prompt: string)
    ensures Decides(rule, prompt) <==> Matches(rule, prompt)
  {
    if rule.needle.Some? {
      var needle := rule.needle.value;
      if Contains(prompt, needle) {
        var i :| 0 <= i <= |prompt| && OccursAt(prompt, needle, i);
        assert InThree(prompt, prompt[..i], needle, prompt[i + |needle|..]);
      }
      if before, behind :| InThree(prompt, before, needle, behind) {
        assert OccursAt(prompt, needle, |before|);
      }
    }
  }

  ghost predicate Decided(m: Model, prompt: string) {
    exists i :: 0 <= i < |m.rules| && Matches(m.rules[i], prompt)
  }

  /** The first rule that matches and has something to give. */
  ghost predicate DecidedBy(m: Model, prompt: string, i: nat) {
    i < |m.rules| && Matches(m.rules[i], prompt) && forall j :: 0 <= j < i ==> !Matches(m.rules[j], prompt)
  }

  /** Which rules match, all at once. */
  lemma {:induction false} RulesMatch(rules: seq<Rule>, prompt: string)
    ensures forall i :: 0 <= i < |rules| ==> (Decides(rules[i], prompt) <==> Matches(rules[i], prompt))
  {
    hide Decides;
    hide Matches;
    forall i | 0 <= i < |rules|
      ensures Decides(rules[i], prompt) <==> Matches(rules[i], prompt)
    {
      DecidesIsMatches(rules[i], prompt);
    }
  }

  predicate HasSequence(m: Model) { m.sequence.Some? && m.sequence.value.responses != [] }

  /** The rule's error, or else its response. */
  ghost predicate RuleGives(rule: Rule, id: string, n: nat, r: Resolved) {
    if rule.error.Some? then r.source == FromRuleError && r.outcome == Error(rule.error.value)
    else
      && r.source == FromRule && rule.response.Some? && ResponseGives(rule.response.value, id, n, r.outcome)
  }

  /** The list's entry number `n - 1`, modulo its length or no further than its last. */
  ghost predicate ListGives(s: Sequence, id: string, n: nat, r: Resolved) {
    && s.responses != [] && n > 0
    && var k := if s.cycle then (n - 1) % |s.responses| else if n <= |s.responses| then n - 1 else |s.responses| - 1;
    && r.source == FromSequence(k) && ResponseGives(s.responses[k], id, n, r.outcome)
  }

  /** A text of 5 to 15 words, or of as many as configured. */
  ghost predicate TextGives(cfg: Option<TextConfig>, id: string, n: nat, o: Outcome) {
    var min, max := if cfg.Some? then cfg.value.minWords else 5, if cfg.Some? then cfg.value.maxWords else 15;
    && o.Plain? && min <= max && IsText(o.text, id, n, min, max) && min <= |Words(o.text)| <= max
    && forall w :: w in Words(o.text) ==> w in LIPSUM
  }

  /** A configured response gives its error, else its payload, else a text. */
  ghost predicate ResponseGives(resp: Response, id: string, n: nat, o: Outcome) {
    if resp.error.Some? then o == Error(resp.error.value)
    else if resp.payload.Some? then o == Json(resp.payload.value)
    else TextGives(resp.text, id, n, o)
  }

  /** By its mode a model gives the configured payload, or null; the value its schema has at this position, which
      conforms to it, or without a schema the word the seed says; or a text. */
  ghost predicate ModeGives(m: Model, id: string, n: nat, r: Resolved) {
    match m.mode
    case StaticMode => r.source == FromStatic && r.outcome == Json(if m.payload.Some? then m.payload.value else Null)
    case SchemaMode =>
      && r.source == FromSchema && r.outcome.Json?
      && (if m.schema.Some? then
            r.outcome.value == Generate(m.schema.value, id, n, "") && Conforms(r.outcome.value, m.schema.value)
          else r.outcome.value == String(LIPSUM[Seed(id, "", n) % |LIPSUM|]))
    case TextMode => r.source == FromText && TextGives(m.text, id, n, r.outcome)
  }

  lemma {:induction false} TextAnswers(cfg: Option<TextConfig>, id: string, n: nat)
    requires Sensible(TextFor(cfg))
    ensures TextGives(cfg, id, n, Plain(GenerateText(id, n, TextFor(cfg))))
  {
    hide GenerateText;
    hide Words;
    hide IsText;
    GenerateTextWords(id, n, TextFor(cfg));
  }

  lemma {:induction false} ResponseAnswers(resp: Response, id: string, n: nat)
    requires SensibleResponse(resp)
    ensures ResponseGives(resp, id, n, Answer(resp, id, n))
  {
    hide GenerateText;
    hide TextGives;
    if resp.error.None? && resp.payload.None? {
      TextAnswers(resp.text, id, n);
    }
  }

  lemma {:induction false} ModeAnswers(m: Model, id: string, n: nat, r: Resolved)
    requires SensibleModel(m) && (r.source, r.outcome) == Fallback(m, id, n)
    ensures ModeGives(m, id, n, r)
  {
    hide GenerateText;
    hide TextGives;
    hide Conforms;
    hide Generate;
    match m.mode
    case StaticMode =>
    case SchemaMode =>
      if m.schema.Some? {
        GenerateConforms(m.schema.value, id, n, "");
      } else {
        AnyWord(id, n);
      }
    case TextMode => TextAnswers(m.text, id, n);
  }

  lemma {:induction false} AnyWord(id: string, n: nat)
    ensures Generate(Schema(OtherKind, map[], None, None), id, n, "") == String(LIPSUM[Seed(id, "", n) % |LIPSUM|])
  {
    hide Seed;
  }

  lemma {:induction false} InjectedExactly(c: Config, id: string, prompt: string, n: nat)
    requires SensibleConfig(c) && n > 0
    ensures var r, m := ResolveAt(c, id, prompt, n), c.ModelFor(id);
            && (r.source.FromInjection? <==> Hit(m, n))
            && (forall i: nat :: HitBy(m, n, i) ==> r.outcome == Error(m.injections[i].error))
  {
    hide Answer;
    hide Fallback;
  }

  lemma {:induction false} RuleDecides(c: Config, id: string, prompt: string, n: nat, i: nat)
    requires SensibleConfig(c) && n > 0 && !Hit(c.ModelFor(id), n) && DecidedBy(c.ModelFor(id), prompt, i)
    ensures RuleGives(c.ModelFor(id).rules[i], id, n, ResolveAt(c, id, prompt, n))
  {
    hide Answer;
    hide Fallback;
    hide ResponseGives;
    var rule := c.ModelFor(id).rules[i];
    RulesMatch(c.ModelFor(id).rules, prompt);
    FirstRuleIs(c.ModelFor(id).rules, prompt, i);
    if rule.error.None? {
      ResponseAnswers(rule.response.value, id, n);
    }
  }

  lemma {:induction false} ListAnswers(c: Config, id: string, prompt: string, n: nat)
    requires SensibleConfig(c) && n > 0
    ensures var r, m := ResolveAt(c, id, prompt, n), c.ModelFor(id);
            && (r.source.FromSequence? <==> !Hit(m, n) && !Decided(m, prompt) && HasSequence(m))
            && (r.source.FromSequence? ==> ListGives(m.sequence.value, id, n, r))
  {
    hide Answer;
    hide Fallback;
    hide ResponseGives;
    var r, m := ResolveAt(c, id, prompt, n), c.ModelFor(id);
    RulesMatch(m.rules, prompt);
    if r.source.FromSequence? {
      ResponseAnswers(m.sequence.value.responses[SequenceIndex(m.sequence.value, n)], id, n);
    }
  }

  lemma {:induction false} RestAnswers(c: Config, id: string, prompt: string, n: nat)
    requires SensibleConfig(c) && n > 0
    ensures var r, m := ResolveAt(c, id, prompt, n), c.ModelFor(id);
            !Hit(m, n) && !Decided(m, prompt) && !HasSequence(m) ==> ModeGives(m, id, n, r)
  {
    hide Answer;
    hide Fallback;
    hide ModeGives;
    var r, m := ResolveAt(c, id, prompt, n), c.ModelFor(id);
    RulesMatch(m.rules, prompt);
    if !Hit(m, n) && !Decided(m, prompt) && !HasSequence(m) {
      ModeAnswers(m, id, n, r);
    }
  }

  lemma {:induction false} RulesAnswer(c: Config, id: string, prompt: string, n: nat)
    requires SensibleConfig(c) && n > 0
    ensures var r, m := ResolveAt(c, id, prompt, n), c.ModelFor(id);
            r.source.FromRuleError? || r.source.FromRule? <==> !Hit(m, n) && Decided(m, prompt)
  {
    hide Answer;
    hide Fallback;
    RulesMatch(c.ModelFor(id).rules, prompt);
  }

  lemma {:induction false} ResolveAnswers(c: Config, id: string, prompt: string, n: nat)
    requires SensibleConfig(c) && n > 0
    ensures Answered(c, id, prompt, n, ResolveAt(c, id, prompt, n))
  {
    hide Choose;
    hide Hit;
    hide HitBy;
    hide Decided;
    hide HasSequence;
    hide RuleGives;
    hide ListGives;
    hide ModeGives;
    InjectedExactly(c, id, prompt, n);
    RulesAnswer(c, id, prompt, n);
    ListAnswers(c, id, prompt, n);
    RestAnswers(c, id, prompt, n);
    forall i: nat | !Hit(c.ModelFor(id), n) && DecidedBy(c.ModelFor(id), prompt, i)
      ensures RuleGives(c.ModelFor(id).rules[i], id, n, ResolveAt(c, id, prompt, n))
    {
      RuleDecides(c, id, prompt, n, i);
    }
  }

  lemma {:induction false} FirstRuleIs(rules: seq<Rule>, prompt: string, i: nat)
    requires i < |rules| && Decides(rules[i], prompt) && forall j :: 0 <= j < i ==> !Decides(rules[j], prompt)
    ensures FirstRule(rules, prompt) == Some(i)
  {
    hide Decides;
    hide FirstRule;
    var r := FirstRule(rules, prompt);
    assert r.Some?;
  }

  /** FAIRNESS. In any window of as many requests as a cycle has entries, every entry is served exactly once. */
  lemma {:induction false} CycleFair(s: Sequence, n: nat, k: nat) returns (j: nat)
    requires s.cycle && n > 0 && k < |s.responses|
    ensures n <= j < n + |s.responses| && SequenceIndex(s, j) == k
    ensures forall j' :: n <= j' < n + |s.responses| && SequenceIndex(s, j') == k ==> j' == j
  {
    var i := TurnFrom(|s.responses|, n - 1, k);
    j := i + 1;
    forall j' | n <= j' < n + |s.responses| && SequenceIndex(s, j') == k
      ensures j' == j
    {
      SameTurn(|s.responses|, j - 1, j' - 1);
    }
  }

  /** Some number from `n` on, within one period, leaves the remainder `k`. */
  lemma {:induction false} TurnFrom(len: nat, n: nat, k: nat) returns (j: nat)
    requires k < len
    ensures n <= j < n + len && j % len == k
  {
    var q, r := n / len, n % len;
    if k >= r {
      j := n + (k - r);
      Quotient(j, len, q, k);
    } else {
      j := n + (len - r + k);
      assert j == (q + 1) * len + k;
      Quotient(j, len, q + 1, k);
    }
  }

  lemma {:induction false} SameTurn(len: nat, i: nat, j: nat)
    requires len > 0 && i % len == j % len && i < j + len && j < i + len
    ensures i == j
  {
    var d: int := j / len - i / len;
    assert j - i == d * len;
    Multiple(d, len);
  }

  /** How many of the positions 1 to `n` a cycle serves with its entry `k`. */
  function ServedUpTo(s: Sequence, k: nat, n: nat): nat
    requires s.responses != []
  {
    if n == 0 then 0 else ServedUpTo(s, k, n - 1) + if SequenceIndex(s, n) == k then 1 else 0
  }

  /** EVEN. Of any number of requests a cycle serves each entry as often as every other, or once more. */
  lemma {:induction false} CycleCount(s: Sequence, k: nat, n: nat)
    requires s.cycle && k < |s.responses|
    ensures ServedUpTo(s, k, n) == (n + |s.responses| - 1 - k) / |s.responses|
  {
    var len := |s.responses|;
    if n == 0 {
      Quotient(len - 1 - k, len, 0, len - 1 - k);
    } else {
      CycleCount(s, k, n - 1);
      DivStep(n + len - 1 - k, len);
      TurnOf(len, n - 1, k);
    }
  }

  lemma {:induction false} TurnOf(len: nat, i: nat, k: nat)
    requires k < len
    ensures (i + len - k) % len == 0 <==> i % len == k
  {
    var q, r := i / len, i % len;
    if r >= k {
      Quotient(i + len - k, len, q + 1, r - k);
    } else {
      Quotient(i + len - k, len, q, r + len - k);
    }
  }

  // ---- Capital letters in rules ----

  /** A lower-casing of texts, and the characters it leaves alone: it produces only such characters, and a text made
      of them is its own lower case. `str::to_lowercase` is one. */
  ghost predicate LowerCasing(lower: string -> string, small: char -> bool) {
    forall s :: AllSmall(lower(s), small) && (AllSmall(s, small) ==> lower(s) == s)
  }

  predicate AllSmall(s: string, small: char -> bool) {
    forall i :: 0 <= i < |s| ==> small(s[i])
  }

  /** The rule applies to the prompt whatever the letter case of either. */
  ghost predicate AppliesInAnyCase(rule: Rule, prompt: string, lower: string -> string) {
    && rule.needle.Some? && Contains(lower(prompt), lower(rule.needle.value))
    && (rule.error.Some? || rule.response.Some?)
  }

  lemma {:induction false} PartIsSmall(text: string, part: string, small: char -> bool)
    requires AllSmall(text, small) && Contains(text, part)
    ensures AllSmall(part, small)
  {
    var i :| 0 <= i <= |text| && OccursAt(text, part, i);
    forall k | 0 <= k < |part|
      ensures small(part[k])
    {
      assert part[k] == text[i + k];
    }
  }

  lemma {:induction false} ContainsItself(s: string)
    ensures Contains(s, s)
  {
    assert s[0..|s|] == s;
    assert OccursAt(s, s, 0);
  }

  /** CAPITALS. Only the prompt is lower-cased before a rule is compared. A rule with something to give decides some
      prompt exactly when its text is all lower case. */
  lemma {:induction false} CapitalsNeverMatch(rule: Rule, lower: string -> string, small: char -> bool)
    requires LowerCasing(lower, small)
    ensures (exists p :: Decides(rule, lower(p))) <==>
              rule.needle.Some? && AllSmall(rule.needle.value, small) && (rule.error.Some? || rule.response.Some?)
  {
    if p :| Decides(rule, lower(p)) {
      PartIsSmall(lower(p), rule.needle.value, small);
    }
    if rule.needle.Some? && AllSmall(rule.needle.value, small) && (rule.error.Some? || rule.response.Some?) {
      ContainsItself(rule.needle.value);
      assert Decides(rule, lower(rule.needle.value));
    }
  }

  /** CASE. A rule is matched without regard to letter case, on every prompt, exactly when its text is all lower case
      (or it has no text, or nothing to give). */
  lemma {:induction false} CaseIgnoredExactly(rule: Rule, lower: string -> string, small: char -> bool)
    requires LowerCasing(lower, small)
    ensures (forall p :: Decides(rule, lower(p)) <==> AppliesInAnyCase(rule, p, lower)) <==>
              rule.needle.None? || (rule.error.None? && rule.response.None?) || AllSmall(rule.needle.value, small)
  {
    if rule.needle.Some? && (rule.error.Some? || rule.response.Some?) && !AllSmall(rule.needle.value, small) {
      var p := rule.needle.value;
      ContainsItself(lower(p));
      assert AppliesInAnyCase(rule, p, lower);
      CapitalsNeverMatch(rule, lower, small);
      assert !Decides(rule, lower(p));
    }
  }

  predicate NotCapital(ch: char) { !('A' <= ch <= 'Z') }

  lemma {:induction false} LowerSmall(s: string)
    ensures AllSmall(Lower(s), NotCapital) && (AllSmall(s, NotCapital) ==> Lower(s) == s)
  {
    if s != "" {
      LowerSmall(s[1..]);
    }
  }

  lemma {:induction false} AsciiLowerCasing()
    ensures LowerCasing(Lower, NotCapital)
  {
    forall s
      ensures AllSmall(Lower(s), NotCapital) && (AllSmall(s, NotCapital) ==> Lower(s) == s)
    {
      LowerSmall(s);
    }
  }

  /** The failure at one input: a rule for `Hi` does not decide the prompt `Hi`. */
  lemma {:induction false} CapitalMissed(error: ErrorEntry)
    ensures var rule := Rule(Some("Hi"), None, Some(error));
            AppliesInAnyCase(rule, "Hi", Lower) && !Decides(rule, Lower("Hi"))
  {
    var rule := Rule(Some("Hi"), None, Some(error));
    ContainsItself(Lower("Hi"));
    AsciiLowerCasing();
    assert !NotCapital("Hi"[0]);
    CapitalsNeverMatch(rule, Lower, NotCapital);
  }

  // ---- How many errors are injected ----

  /** How many of the requests 1 to `n` are hit. */
  function HitsUpTo(inj: Injection, n: nat): nat {
    if n == 0 then 0 else HitsUpTo(inj, n - 1) + if Hits(inj, n) then 1 else 0
  }

  lemma {:induction false} HitsCount(inj: Injection, n: nat)
    ensures HitsUpTo(inj, n) == if inj.every == 0 then 0 else n / inj.every
  {
    if n > 0 {
      HitsCount(inj, n - 1);
      if inj.every > 0 {
        DivStep(n, inj.every);
      }
    }
  }

  lemma {:induction false} DivStep(n: nat, e: nat)
    requires n > 0 && e > 0
    ensures n / e == (n - 1) / e + if n % e == 0 then 1 else 0
  {
    var q, r := (n - 1) / e, (n - 1) % e;
    assert n == q * e + r + 1;
    if r + 1 == e {
      Quotient(n, e, q + 1, 0);
    } else {
      Quotient(n, e, q, r + 1);
    }
  }

  lemma {:induction false} Quotient(n: nat, e: nat, q: nat, r: nat)
    requires e > 0 && r < e && n == q * e + r
    ensures n / e == q && n % e == r
  {
    var d: int := n / e - q;
    assert n == (n / e) * e + n % e;
    assert d * e == r - n % e;
    Multiple(d, e);
  }

  lemma {:induction false} Multiple(d: int, e: nat)
    ensures d >= 1 ==> d * e >= e
    ensures d <= -1 ==> d * e <= 0 - e
  {
  }

  /** Injected errors among the responses to one model's requests since its last reset. */
  ghost function Injected(c: Config, calls: seq<Call>, id: string): nat
    requires SensibleConfig(c)
  {
    if calls == [] then 0
    else
      var front, last := calls[..|calls| - 1], calls[|calls| - 1];
      if Resets(last, id) then 0
      else
        Injected(c, front, id)
        + if last.Invoke? && last.id == id && ResolveAt(c, id, last.prompt, Since(front, id) + 1).source.FromInjection?
          then 1 else 0
  }

  /** FREQUENCY. With one injection entry of period `e`, of the N requests a model got since its last reset exactly
      N / e, rounded down, were answered with the injected error, whatever happened to other models. */
  lemma {:induction false} InjectionFrequency(c: Config, calls: seq<Call>, id: string)
    requires SensibleConfig(c) && |c.ModelFor(id).injections| == 1
    ensures var e := c.ModelFor(id).injections[0].every;
            Injected(c, calls, id) == if e == 0 then 0 else Since(calls, id) / e
  {
    HitsCount(c.ModelFor(id).injections[0], Since(calls, id));
    InjectedHits(c, calls, id);
  }

  lemma {:induction false} InjectedHits(c: Config, calls: seq<Call>, id: string)
    requires SensibleConfig(c) && |c.ModelFor(id).injections| == 1
    ensures Injected(c, calls, id) == HitsUpTo(c.ModelFor(id).injections[0], Since(calls, id))
  {
    if calls == [] {
      SinceStart(calls, id);
    } else {
      var front, last := calls[..|calls| - 1], calls[|calls| - 1];
      InjectedHits(c, front, id);
      SinceStep(front, last, id);
      assert calls == front + [last];
      if last.Invoke? && last.id == id {
        InjectedExactly(c, id, last.prompt, Since(front, id) + 1);
      }
    }
  }
}
