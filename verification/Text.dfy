/** Text helpers the program takes from its standard library: whitespace splitting,
    joining, trimming, and decimal rendering of numbers. */
module Text {

  /** The characters with the Unicode White_Space property. */
  predicate IsSpace(c: char) {
    || '\t' <= c <= '\r'
    || c == ' ' || c == '\U{85}' || c == '\U{A0}' || c == '\U{1680}'
    || '\U{2000}' <= c <= '\U{200A}'
    || c == '\U{2028}' || c == '\U{2029}' || c == '\U{202F}' || c == '\U{205F}' || c == '\U{3000}'
  }

  /** A word: non-empty and free of whitespace. */
  predicate Clean(w: string) {
    w != "" && forall i :: 0 <= i < |w| ==> !IsSpace(w[i])
  }

  predicate AllClean(ws: seq<string>) {
    forall i :: 0 <= i < |ws| ==> Clean(ws[i])
  }

  /** Length of the leading run of non-space characters. */
  function WordLength(s: string): (n: nat)
    ensures n <= |s|
    ensures forall i :: 0 <= i < n ==> !IsSpace(s[i])
    ensures n < |s| ==> IsSpace(s[n])
  {
    if s == "" || IsSpace(s[0]) then 0 else 1 + WordLength(s[1..])
  }

  /** `split_whitespace`: the maximal runs of non-space characters, in order. */
  function Words(s: string): (ws: seq<string>)
    ensures AllClean(ws)
    decreases |s|
  {
    if s == "" then []
    else if IsSpace(s[0]) then Words(s[1..])
    else
      var n := WordLength(s);
      [s[..n]] + Words(s[n..])
  }

  /** `join(" ")`. */
  function Join(ws: seq<string>): string {
    if |ws| == 0 then ""
    else if |ws| == 1 then ws[0]
    else ws[0] + " " + Join(ws[1..])
  }

  /** A word followed by the end of the text or a space is split off whole. */
  lemma {:induction false} WordsCons(w: string, rest: string)
    requires Clean(w)
    requires rest == "" || IsSpace(rest[0])
    ensures Words(w + rest) == [w] + Words(rest)
  {
    assert WordLength(w + rest) == |w|;
    assert (w + rest)[0] == w[0];
    assert (w + rest)[..|w|] == w && (w + rest)[|w|..] == rest;
  }

  lemma {:induction false} WordsOfJoin(ws: seq<string>)
    requires AllClean(ws)
    ensures Words(Join(ws)) == ws
  {
    if |ws| == 1 {
      WordsCons(ws[0], "");
      assert ws[0] + "" == ws[0];
    } else if |ws| > 1 {
      WordsOfJoin(ws[1..]);
      WordsJoinStep(ws[0], ws[1..]);
    }
  }

  lemma {:induction false} WordsJoinStep(w: string, ws: seq<string>)
    requires Clean(w) && ws != [] && Words(Join(ws)) == ws
    ensures Words(Join([w] + ws)) == [w] + ws
  {
    var rest := " " + Join(ws);
    assert ([w] + ws)[1..] == ws;
    assert w + " " + Join(ws) == w + rest;
    WordsCons(w, rest);
    assert rest[1..] == Join(ws);
  }

  /** Joining a list and splitting it again gives the list back exactly when every
      entry is a word; this is the condition under which a scope list survives storage. */
  lemma {:induction false} JoinSurvivesSplit(ws: seq<string>)
    ensures Words(Join(ws)) == ws <==> AllClean(ws)
  {
    if AllClean(ws) {
      WordsOfJoin(ws);
    }
  }

  /** Storing a split list and splitting it again changes nothing, for any text. */
  lemma {:induction false} WordsStable(s: string)
    ensures Words(Join(Words(s))) == Words(s)
  {
    WordsOfJoin(Words(s));
  }

  lemma {:induction false} WordsLead(a: string, s: string)
    requires a != "" && !IsSpace(a[0]) && (s == "" || IsSpace(s[0]))
    ensures var n := WordLength(a);
            0 < n && Words(a + s) == [a[..n]] + Words(a[n..] + s) && Words(a) == [a[..n]] + Words(a[n..])
  {
    var n := WordLength(a);
    var w, rest := a[..n], a[n..];
    assert a == w + rest && a + s == w + (rest + s);
    WordsCons(w, rest);
    WordsCons(w, rest + s);
  }

  /** WORDS, EXACTLY. A word is split off as it is, and white space parts a text into what its two sides hold. */
  lemma {:induction false} WordsExactly(a: string, c: char, b: string)
    requires IsSpace(c)
    ensures Words("") == []
    ensures Clean(a) ==> Words(a) == [a]
    ensures Words(a + ([c] + b)) == Words(a) + Words(b)
    decreases |a|
  {
    hide WordLength;
    var s := [c] + b;
    if a == "" {
      assert a + s == s && s[1..] == b;
    } else if IsSpace(a[0]) {
      assert (a + s)[1..] == a[1..] + s;
      WordsExactly(a[1..], c, b);
    } else {
      WordsLead(a, s);
      WordsExactly(a[WordLength(a)..], c, b);
      if Clean(a) {
        WordsCons(a, "");
        assert a + "" == a;
      }
    }
  }

  function TrimStart(s: string): string {
    if s != "" && IsSpace(s[0]) then TrimStart(s[1..]) else s
  }

  function TrimEnd(s: string): string {
    if s != "" && IsSpace(s[|s| - 1]) then TrimEnd(s[..|s| - 1]) else s
  }

  function Trim(s: string): string {
    TrimEnd(TrimStart(s))
  }

  predicate AllSpaces(s: string) { forall i :: 0 <= i < |s| ==> IsSpace(s[i]) }

  /** TRIM. What is left has no white space at its ends, and what is gone from either side is nothing else. */
  lemma {:induction false} TrimExactly(s: string) returns (before: string, behind: string)
    ensures s == before + Trim(s) + behind && AllSpaces(before) && AllSpaces(behind)
    ensures Trim(s) != "" ==> !IsSpace(Trim(s)[0]) && !IsSpace(Trim(s)[|Trim(s)| - 1])
  {
    before := StartTrimmed(s);
    behind := EndTrimmed(TrimStart(s));
    assert s == before + (Trim(s) + behind);
    if Trim(s) != "" {
      assert TrimStart(s)[0] == Trim(s)[0];
    }
  }

  lemma {:induction false} StartTrimmed(s: string) returns (before: string)
    ensures s == before + TrimStart(s) && AllSpaces(before)
    ensures TrimStart(s) != "" ==> !IsSpace(TrimStart(s)[0])
  {
    before := "";
    if s != "" && IsSpace(s[0]) {
      var more := StartTrimmed(s[1..]);
      before := [s[0]] + more;
      assert s == [s[0]] + s[1..];
    }
  }

  lemma {:induction false} EndTrimmed(s: string) returns (behind: string)
    ensures s == TrimEnd(s) + behind && AllSpaces(behind)
    ensures TrimEnd(s) != "" ==> !IsSpace(TrimEnd(s)[|TrimEnd(s)| - 1])
  {
    behind := "";
    if s != "" && IsSpace(s[|s| - 1]) {
      var more := EndTrimmed(s[..|s| - 1]);
      behind := more + [s[|s| - 1]];
      assert s == s[..|s| - 1] + [s[|s| - 1]];
    }
  }

  function LowerChar(c: char): char {
    if 'A' <= c <= 'Z' then c + ('a' - 'A') else c
  }

  /** Lower case for ASCII letters only, as SQL's `lower` has it. */
  function Lower(s: string): string {
    if s == "" then "" else [LowerChar(s[0])] + Lower(s[1..])
  }

  /** Numbers of 64 bits are below this. */
  const U64 := 0x1_0000_0000_0000_0000

  /** `n.to_string()` for a non-negative number. */
  function Decimal(n: nat): (s: string)
    ensures |s| > 0
    ensures forall i :: 0 <= i < |s| ==> '0' <= s[i] <= '9'
  {
    var digit := ['0' + (n % 10) as char];
    if n < 10 then digit else Decimal(n / 10) + digit
  }

  /** One entry that does not survive. */
  lemma {:induction false} SpacedEntryLost()
    ensures Words(Join(["a b"])) != ["a b"]
  {
    hide Words;
    JoinSurvivesSplit(["a b"]);
    assert IsSpace("a b"[1]);
    assert !Clean(["a b"][0]);
  }
}
