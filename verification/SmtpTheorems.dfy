/** What the SMTP server promises: dot-stuffing is undone, a client's script is understood as
    written, and every delivery is accounted for by the commands before it. */
module SmtpTheorems {
  import opened Options
  import opened Sequences
  import opened Text
  import opened Utf8
  import opened Smtp

  // ---- Every stream: where the payload ends ----

  function Flat(lines: seq<Bytes>): Bytes {
    if lines == [] then [] else lines[0] + Flat(lines[1..])
  }

  /** A whole line: LF ends it and occurs nowhere else in it. */
  predicate IsLine(line: Bytes) {
    line != [] && line[|line| - 1] == LF && LF !in line[..|line| - 1]
  }

  /** The pieces are lines; only the last may lack its LF, and only at the end of the stream. */
  ghost predicate AreLines(lines: seq<Bytes>, atEnd: bool) {
    forall i :: 0 <= i < |lines| ==>
      && lines[i] != [] && !EndsData(lines[i])
      && (IsLine(lines[i]) || (i == |lines| - 1 && atEnd && LF !in lines[i]))
  }

  /** DATA. For every byte stream the reader consumes exactly the payload lines and one terminator line (or runs
      to the end), whether or not the message was too big, and leaves the rest of the stream untouched. */
  lemma {:induction false} PayloadSplits(s: Bytes) returns (term: Bytes)
    ensures var p := Payload(s);
            && s == Flat(p.0) + term + p.1
            && (EndsData(term) || (term == [] && p.1 == []))
            && (term != [] ==> IsLine(term) || p.1 == [])
            && AreLines(p.0, term == [])
    decreases |s|
  {
    hide LineLength;
    var n := LineLength(s);
    if n == 0 {
      term := [];
    } else if EndsData(s[..n]) {
      term := s[..n];
      FirstLine(s);
    } else {
      term := PayloadSplits(s[n..]);
      var (lines, rest) := Payload(s[n..]);
      FirstLine(s);
      LinesCons(s[..n], lines, term == []);
      assert ([s[..n]] + lines)[1..] == lines;
      Glue(s[..n], Flat(lines) + term, rest);
      Glue(s[..n], Flat(lines), term);
      Halves(s, n);
    }
  }

  lemma {:induction false} LinesCons(line: Bytes, lines: seq<Bytes>, atEnd: bool)
    requires AreLines(lines, atEnd) && line != [] && !EndsData(line)
    requires IsLine(line) || (lines == [] && atEnd && LF !in line)
    ensures AreLines([line] + lines, atEnd)
  {
  }

  // ---- Dot-stuffing ----

  function StuffLine(line: Bytes): Bytes {
    if line != [] && line[0] == DOT then [DOT] + line else line
  }

  /** A message as a client sends it: every line that begins with a dot gets one more. */
  function Stuff(m: Bytes): Bytes
    decreases |m|
  {
    var n := LineLength(m);
    if n == 0 then [] else StuffLine(m[..n]) + Stuff(m[n..])
  }

  const END: Bytes := [DOT, CR, LF]

  /** Empty, or with a last line that is complete. */
  predicate Whole(m: Bytes) {
    m == [] || m[|m| - 1] == LF
  }

  /** A line is found whole in front of any bytes. */
  lemma {:induction false} LineThen(line: Bytes, rest: Bytes)
    requires IsLine(line)
    ensures LineLength(line + rest) == |line|
    ensures (line + rest)[..|line|] == line && (line + rest)[|line|..] == rest
  {
    if |line| > 1 {
      assert line[0] in line[..|line| - 1];
      LineThen(line[1..], rest);
      assert (line + rest)[1..] == line[1..] + rest;
    }
  }

  /** The first line of a message, where a line is complete. */
  lemma {:induction false} FirstLine(m: Bytes)
    requires m != []
    ensures var n := LineLength(m);
            && 1 <= n <= |m| && LF !in m[..n - 1] && (n < |m| ==> m[n - 1] == LF)
            && m[..n][..n - 1] == m[..n - 1]
            && (IsLine(m[..n]) || (n == |m| && LF !in m))
            && (Whole(m) ==> m[n - 1] == LF && Whole(m[n..]))
  {
    var n := LineLength(m);
    if n < |m| {
      assert LF in m[..n];
    }
    assert m[..n][..n - 1] == m[..n - 1];
    if n == |m| {
      assert m[..n] == m;
    }
  }

  lemma {:induction false} StuffedLine(line: Bytes)
    requires IsLine(line)
    ensures var l := StuffLine(line);
            && IsLine(l) && !EndsData(l) && Unstuff(l) == line && !LoneDot(l)
  {
    var l := StuffLine(line);
    if line[0] == DOT {
      assert l[..|l| - 1] == [DOT] + line[..|line| - 1] && l[1] == DOT;
    } else {
      assert l[0] != DOT;
    }
  }

  /** A line that begins with one dot, not two. */
  predicate LoneDot(line: Bytes) { [DOT] <= line && !([DOT, DOT] <= line) }

  /** Reading past one stuffed line. */
  lemma {:induction false} PayloadFirst(line: Bytes, rest: Bytes)
    requires IsLine(line)
    ensures Payload(StuffLine(line) + rest) == ([StuffLine(line)] + Payload(rest).0, Payload(rest).1)
    ensures Unstuff(StuffLine(line)) == line && !LoneDot(StuffLine(line))
  {
    StuffedLine(line);
    LineThen(StuffLine(line), rest);
  }

  lemma {:induction false} PayloadCons(line: Bytes, rest: Bytes)
    requires IsLine(line)
    ensures var p, q := Payload(StuffLine(line) + rest), Payload(rest);
            Unstuffed(p.0) == line + Unstuffed(q.0) && p.1 == q.1
  {
    PayloadFirst(line, rest);
    var lines := Payload(rest).0;
    assert ([StuffLine(line)] + lines)[1..] == lines;
  }

  lemma {:induction false} EndThen(rest: Bytes)
    ensures Payload(END + rest) == ([], rest)
  {
    LineThen(END, rest);
  }

  /** Reading past the first line of a stuffed message. */
  lemma {:induction false} StuffedFirst(m: Bytes, n: nat, rest: Bytes)
    requires m != [] && n == LineLength(m) && m[n - 1] == LF
    ensures var p, q := Payload(Stuff(m) + rest), Payload(Stuff(m[n..]) + rest);
            Unstuffed(p.0) == m[..n] + Unstuffed(q.0) && p.1 == q.1
  {
    FirstLine(m);
    assert m[..n][..n - 1] == m[..n - 1];
    Glue(StuffLine(m[..n]), Stuff(m[n..]), rest);
    PayloadCons(m[..n], Stuff(m[n..]) + rest);
  }

  /** Reading `tail` behind the stuffed message gives the message, and leaves `rest`. */
  ghost predicate Reads(m: Bytes, tail: Bytes, rest: Bytes) {
    var p := Payload(Stuff(m) + tail);
    Unstuffed(p.0) == m && p.1 == rest
  }

  lemma {:induction false} ReadsStep(m: Bytes, tail: Bytes, rest: Bytes)
    requires m != [] && Whole(m) && Reads(m[LineLength(m)..], tail, rest)
    ensures Reads(m, tail, rest)
  {
    var n := LineLength(m);
    FirstLine(m);
    StuffedFirst(m, n, tail);
    Halves(m, n);
  }

  lemma {:induction false} Halves(m: Bytes, n: nat)
    requires n <= |m|
    ensures m[..n] + m[n..] == m
  {
  }

  lemma {:induction false} StuffThen(m: Bytes, tail: Bytes, rest: Bytes)
    requires Whole(m) && Payload(tail) == ([], rest)
    ensures Reads(m, tail, rest)
    decreases |m|
  {
    if m == [] {
      assert Stuff(m) + tail == tail;
    } else {
      FirstLine(m);
      StuffThen(m[LineLength(m)..], tail, rest);
      ReadsStep(m, tail, rest);
    }
  }

  lemma {:induction false} StuffUnstuff(m: Bytes, rest: Bytes)
    requires Whole(m)
    ensures var p := Payload(Stuff(m) + (END + rest)); Unstuffed(p.0) == m && p.1 == rest
  {
    EndThen(rest);
    StuffThen(m, END + rest, rest);
  }

  /** An incomplete last line swallows the terminator. */
  lemma {:induction false} PartialGrows(m: Bytes, rest: Bytes)
    requires !Whole(m)
    ensures |Unstuffed(Payload(Stuff(m) + (END + rest)).0)| > |m|
    decreases |m|
  {
    hide Payload;
    hide Unstuffed;
    hide StuffLine;
    hide LineLength;
    var n := LineLength(m);
    FirstLine(m);
    if n == |m| {
      assert m[..n] == m && m[n..] == [];
      assert Stuff(m) == StuffLine(m);
      PartialLine(m, rest);
    } else {
      PartialGrows(m[n..], rest);
      StuffedFirst(m, n, END + rest);
    }
  }

  lemma {:induction false} PartialLine(m: Bytes, rest: Bytes)
    requires m != [] && LF !in m
    ensures |Unstuffed(Payload(StuffLine(m) + (END + rest)).0)| > |m|
  {
    var line := m + END;
    assert line[..|line| - 1] == m + [DOT, CR];
    assert StuffLine(m) + (END + rest) == StuffLine(line) + rest;
    PayloadCons(line, rest);
  }

  /** ROUND TRIP. A stuffed message and its terminator are read back as that message, with the stream left just
      behind the terminator, exactly when the message ends in a line end (or is empty) and fits the cap. */
  lemma {:induction false} DataRoundTrip(m: Bytes, rest: Bytes)
    ensures ReadData(Stuff(m) + END + rest) == Read(Some(m), rest) <==> Whole(m) && |m| <= MAX_MESSAGE
  {
    Glue(Stuff(m), END, rest);
    if Whole(m) {
      StuffUnstuff(m, rest);
    } else {
      PartialGrows(m, rest);
    }
  }

  /** One message that is not read back: its only line has no end. */
  lemma {:induction false} UnendedMessageLost(rest: Bytes)
    ensures ReadData(Stuff([120]) + END + rest) != Read(Some([120]), rest)
  {
    hide ReadData;
    hide Stuff;
    DataRoundTrip([120], rest);
  }

  /** CAP. Whatever its size, a complete message is consumed to just behind its terminator. */
  lemma {:induction false} DataConsumed(m: Bytes, rest: Bytes)
    requires Whole(m)
    ensures ReadData(Stuff(m) + END + rest) == Read(if |m| > MAX_MESSAGE then None else Some(m), rest)
  {
    Glue(Stuff(m), END, rest);
    StuffUnstuff(m, rest);
  }

  // ---- Command lines ----

  function Line(text: string): Bytes {
    Encode(text) + [CR, LF]
  }

  lemma {:induction false} TrimEndKeeps(p: string, x: string)
    requires p != "" && !IsSpace(p[|p| - 1])
    ensures p <= TrimEnd(p + x)
    ensures (forall i :: 0 <= i < |x| ==> IsSpace(x[i])) ==> TrimEnd(p + x) == p
  {
    if x == "" {
      assert p + x == p;
    } else if IsSpace(x[|x| - 1]) {
      TrimEndKeeps(p, x[..|x| - 1]);
      assert (p + x)[..|p + x| - 1] == p + x[..|x| - 1];
    }
  }

  lemma {:induction false} DecodeAscii(bs: Bytes)
    requires forall i :: 0 <= i < |bs| ==> bs[i] < 0x80
    ensures |Decode(bs)| == |bs| && forall i :: 0 <= i < |bs| ==> Decode(bs)[i] == bs[i] as char
  {
    if bs != [] {
      DecodeAscii(bs[1..]);
    }
  }

  /** A line within the cap reaches the parser as it was written. */
  lemma {:induction false} LineTextOf(text: string)
    requires text != "" && !IsSpace(text[|text| - 1]) && |Encode(text)| <= MAX_LINE
    ensures LineText(Line(text)) == text
  {
    var e := Encode(text);
    var k := if |Line(text)| > MAX_LINE then MAX_LINE - |e| else 2;
    var tail: Bytes := [CR, LF][..k];
    var cut := if |Line(text)| > MAX_LINE then Line(text)[..MAX_LINE] else Line(text);
    assert cut == e + tail;
    DecodeEncode(text, tail);
    DecodeAscii(tail);
    TrimEndKeeps(text, Decode(tail));
  }

  /** The first characters of a line of any length reach the parser. */
  lemma {:induction false} LineTextPrefix(p: string, x: string)
    requires p != "" && !IsSpace(p[|p| - 1]) && |Encode(p)| <= MAX_LINE
    ensures p <= LineText(Line(p + x))
  {
    hide Decode;
    hide Encode;
    hide TrimEnd;
    EncodeConcat(p, x);
    var line := Line(p + x);
    var cut := if |line| > MAX_LINE then line[..MAX_LINE] else line;
    var more := cut[|Encode(p)|..];
    assert cut == Encode(p) + more;
    DecodeEncode(p, more);
    TrimEndKeeps(p, Decode(more));
  }

  lemma {:induction false} TurnOnLine(text: string, st: State, rest: Bytes)
    requires '\n' !in text
    ensures Line(text) + rest != []
    ensures NextTurn(Line(text) + rest, st) == Obey(Parse(LineText(Line(text))), st, rest)
  {
    EncodeNoLf(text);
    var line := Line(text);
    assert line[..|line| - 1] == Encode(text) + [CR];
    LineThen(line, rest);
  }

  // ---- Verbs and paths ----

  /** The line begins with the verb, in any letter case. */
  predicate Leads(verb: string, line: string) {
    |verb| <= |line| && forall i :: 0 <= i < |verb| ==> UpperChar(line[i]) == verb[i]
  }

  const VERBS := ["EHLO", "HELO", "MAIL FROM", "RCPT TO", "DATA", "RSET", "NOOP", "QUIT", "VRFY", "EXPN"]

  lemma {:induction false} UpperLeads(verb: string, line: string)
    ensures verb <= Upper(line) <==> Leads(verb, line)
  {
    if Leads(verb, line) {
      assert Upper(line)[..|verb|] == verb;
    }
    if verb <= Upper(line) {
      forall i | 0 <= i < |verb| ensures UpperChar(line[i]) == verb[i] {
        assert Upper(line)[..|verb|][i] == verb[i];
      }
    }
  }

  /** What a verb means. */
  function Meaning(verb: string, line: string): Command {
    if verb == "MAIL FROM" then MailFrom(ExtractAngle(line))
    else if verb == "RCPT TO" then RcptTo(ExtractAngle(line))
    else if verb == "DATA" then Data
    else if verb == "RSET" then Reset
    else if verb == "QUIT" then Quit
    else if verb == "NOOP" then Noop
    else if verb == "EHLO" || verb == "HELO" then Hello
    else if verb == "VRFY" || verb == "EXPN" then Verify
    else Unknown
  }

  lemma {:induction false} VerbRules(verb: string, line: string)
    requires verb in VERBS && Leads(verb, line)
    ensures Parse(line) == Meaning(verb, line)
  {
    hide ExtractAngle;
    var u := Upper(line);
    UpperLeads(verb, line);
    assert u[0] == verb[0] && u[1] == verb[1];
  }

  lemma {:induction false} NoVerb(line: string)
    requires forall verb :: verb in VERBS ==> !Leads(verb, line)
    ensures Parse(line) == Unknown
  {
    forall i | 0 <= i < |VERBS|
      ensures !(VERBS[i] <= Upper(line))
    {
      assert VERBS[i] in VERBS;
      UpperLeads(VERBS[i], line);
    }
    assert VERBS[0] == "EHLO" && VERBS[1] == "HELO" && VERBS[2] == "MAIL FROM" && VERBS[3] == "RCPT TO";
    assert VERBS[4] == "DATA" && VERBS[5] == "RSET" && VERBS[6] == "NOOP" && VERBS[7] == "QUIT";
    assert VERBS[8] == "VRFY" && VERBS[9] == "EXPN";
  }

  /** What follows MAIL FROM or RCPT TO: an address in brackets, with anything around it; without brackets, what follows
      the first colon; or neither. */
  datatype Path = Angled(before: string, addr: string, after: string) | Bare(before: string, text: string) | Missing(text: string)

  function Spell(p: Path): string {
    match p
    case Angled(before, addr, after) => before + "<" + addr + ">" + after
    case Bare(before, text) => before + ":" + text
    case Missing(text) => text
  }

  /** The address a path gives. */
  function Meant(p: Path): string {
    match p
    case Angled(_, addr, _) => addr
    case Bare(_, text) => Trim(text)
    case Missing(_) => ""
  }

  /** No opening bracket with a closing one behind it. */
  predicate NoAngles(s: string) {
    forall i, j :: 0 <= i < j < |s| ==> !(s[i] == '<' && s[j] == '>')
  }

  predicate SoundPath(p: Path) {
    match p
    case Angled(before, _, after) => '<' !in before && '>' !in after
    case Bare(before, _) => ':' !in before && NoAngles(Spell(p))
    case Missing(text) => ':' !in text && NoAngles(text)
  }

  lemma {:induction false} FindIs(s: string, c: char, i: nat)
    requires i < |s| && s[i] == c && c !in s[..i]
    ensures Find(s, c) == Some(i)
  {
    if i > 0 {
      assert s[0] == s[..i][0];
      assert s[1..][..i - 1] == s[..i][1..];
      FindIs(s[1..], c, i - 1);
    }
  }

  lemma {:induction false} FindLastIs(s: string, c: char, i: nat)
    requires i < |s| && s[i] == c && c !in s[i + 1..]
    ensures FindLast(s, c) == Some(i)
  {
    var n := |s| - 1;
    if i < n {
      assert s[n] == s[i + 1..][n - i - 1];
      assert s[..n][i + 1..] == s[i + 1..][..n - i - 1];
      FindLastIs(s[..n], c, i);
    }
  }

  lemma {:induction false} FoundBy(s: string, c: char, i: nat)
    requires i < |s| && s[i] == c
    ensures Find(s, c).Some? && Find(s, c).value <= i
    ensures FindLast(s, c).Some? && i <= FindLast(s, c).value
  {
    var a, b := Find(s, c), FindLast(s, c);
    assert c in s;
  }

  /** The outermost brackets are the ones around the address, brackets and colons inside and parameters behind included. */
  lemma {:induction false} AngleOf(p: string, a: string, q: string)
    requires '<' !in p && '>' !in q
    ensures ExtractAngle(p + "<" + a + ">" + q) == a
  {
    var s := p + "<" + a + ">" + q;
    var end := |p| + 1 + |a|;
    assert s[..|p|] == p && s[end + 1..] == q;
    FindIs(s, '<', |p|);
    FindLastIs(s, '>', end);
    assert s[|p| + 1..end] == a;
  }

  lemma {:induction false} Unbracketed(s: string)
    requires NoAngles(s)
    ensures ExtractAngle(s) == if ':' in s then Trim(s[Find(s, ':').value + 1..]) else ""
  {
    hide Trim;
    var _, _ := Find(s, '<'), FindLast(s, '>');
  }

  lemma {:induction false} BareRead(p: string, text: string)
    requires ':' !in p && NoAngles(p + ":" + text)
    ensures ExtractAngle(p + ":" + text) == Trim(text)
  {
    hide Trim;
    hide NoAngles;
    hide ExtractAngle;
    var s := p + ":" + text;
    Unbracketed(s);
    assert s[..|p|] == p;
    FindIs(s, ':', |p|);
    assert s[|p|] in s;
    assert s[|p| + 1..] == text;
  }

  lemma {:induction false} Respell(verb: string, p: Path)
    ensures match p
            case Angled(before, addr, after) => verb + Spell(p) == (verb + before) + "<" + addr + ">" + after
            case Bare(before, text) => verb + Spell(p) == (verb + before) + ":" + text
            case Missing(text) => verb + Spell(p) == verb + text
  {
  }

  /** PATH. The address in brackets is taken whole, else what follows the first colon, else nothing. */
  lemma {:induction false} PathRead(verb: string, p: Path)
    requires SoundPath(p) && '<' !in verb && '>' !in verb && ':' !in verb
    ensures ExtractAngle(verb + Spell(p)) == Meant(p)
  {
    hide Trim;
    hide ExtractAngle;
    hide NoAngles;
    Respell(verb, p);
    match p {
      case Angled(before, addr, after) => AngleOf(verb + before, addr, after);
      case Bare(before, text) =>
        VerbWithout(verb, Spell(p));
        BareRead(verb + before, text);
      case Missing(text) =>
        VerbWithout(verb, text);
        Unbracketed(verb + text);
    }
  }

  lemma {:induction false} VerbWithout(verb: string, text: string)
    requires '<' !in verb && '>' !in verb && NoAngles(text)
    ensures NoAngles(verb + text)
  {
    var s := verb + text;
    forall i, j | 0 <= i < j < |s| ensures !(s[i] == '<' && s[j] == '>') {
      if i < |verb| {
        assert s[i] == verb[i] && verb[i] in verb;
      } else {
        assert s[i] == text[i - |verb|] && s[j] == text[j - |verb|];
      }
    }
  }

  lemma {:induction false} NoAnglesBy(s: string)
    requires Find(s, '<').Some? && FindLast(s, '>').Some? ==> FindLast(s, '>').value <= Find(s, '<').value
    ensures NoAngles(s)
  {
    hide Find;
    hide FindLast;
    forall i, j | 0 <= i < j < |s| ensures !(s[i] == '<' && s[j] == '>') {
      if s[i] == '<' {
        FoundBy(s, '<', i);
      }
      if s[j] == '>' {
        FoundBy(s, '>', j);
      }
    }
  }

  /** Every text is spelled by a sound path, so nothing a client may write is left unsaid. */
  lemma {:induction false} PathsCover(s: string) returns (p: Path)
    ensures SoundPath(p) && Spell(p) == s
  {
    hide NoAngles;
    var a, b, c := Find(s, '<'), FindLast(s, '>'), Find(s, ':');
    if a.Some? && b.Some? && a.value < b.value {
      p := Angled(s[..a.value], s[a.value + 1..b.value], s[b.value + 1..]);
      CutTwice(s, a.value, b.value);
    } else {
      NoAnglesBy(s);
      p := if c.Some? then Bare(s[..c.value], s[c.value + 1..]) else Missing(s);
      if c.Some? {
        CutOnce(s, c.value);
      }
    }
  }

  lemma {:induction false} CutTwice(s: string, i: nat, j: nat)
    requires i < j < |s| && s[i] == '<' && s[j] == '>'
    ensures s[..i] + "<" + s[i + 1..j] + ">" + s[j + 1..] == s
  {
  }

  lemma {:induction false} CutOnce(s: string, i: nat)
    requires i < |s| && s[i] == ':'
    ensures s[..i] + ":" + s[i + 1..] == s
  {
  }

  // ---- Scripts ----

  /** What a client may say: MAIL FROM and RCPT TO with an address, DATA with a message, RSET, and lines the server only
      answers: NOOP or a greeting, VRFY or EXPN, and lines it does not know. */
  datatype Item =
    | Mail(verb: string, path: Path)
    | Rcpt(verb: string, path: Path)
    | Send(line: string, message: Bytes)
    | Forget(line: string)
    | Chat(line: string)
    | Inquire(line: string)
    | Babble(line: string)

  /** A line the server reads whole. */
  predicate ReadWhole(text: string) {
    text != "" && !IsSpace(text[|text| - 1]) && '\n' !in text && |Encode(text)| <= MAX_LINE
  }

  /** The line begins with one of the verbs, in any letter case, with anything behind it, of any length. */
  predicate LedBy(line: string, verbs: set<string>) {
    '\n' !in line && exists verb :: verb in verbs && Leads(verb, line)
  }

  /** Verbs in any letter case; addresses whose command fits the line cap; messages of complete lines. */
  predicate Sayable(i: Item) {
    match i
    case Mail(verb, path) => Upper(verb) == "MAIL FROM" && SoundPath(path) && ReadWhole(verb + Spell(path))
    case Rcpt(verb, path) => Upper(verb) == "RCPT TO" && SoundPath(path) && ReadWhole(verb + Spell(path))
    case Send(line, m) => LedBy(line, {"DATA"}) && Whole(m)
    case Forget(line) => LedBy(line, {"RSET"})
    case Chat(line) => LedBy(line, {"NOOP", "EHLO", "HELO"})
    case Inquire(line) => LedBy(line, {"VRFY", "EXPN"})
    case Babble(line) => ReadWhole(line) && forall verb :: verb in VERBS ==> !Leads(verb, line)
  }

  /** The bytes of one item. Without recipients the server refuses DATA, so no message follows. */
  function Say(i: Item, st: State): Bytes {
    match i
    case Mail(verb, path) => Line(verb + Spell(path))
    case Rcpt(verb, path) => Line(verb + Spell(path))
    case Send(line, m) => Line(line) + if st.rcpts == [] then [] else Stuff(m) + END
    case Forget(line) => Line(line)
    case Chat(line) => Line(line)
    case Inquire(line) => Line(line)
    case Babble(line) => Line(line)
  }

  /** What an item means, and the replies it gets. */
  datatype Sense = Sense(event: Event, delivery: seq<Delivery>, replies: seq<nat>, state: State)

  function Mean(i: Item, st: State): Sense {
    match i
    case Mail(_, path) => Sense(Sender(Meant(path)), [], [250], State(Meant(path), []))
    case Rcpt(_, path) => Sense(Recipient(Meant(path)), [], [250], State(st.from, st.rcpts + [Meant(path)]))
    case Send(_, m) =>
      if st.rcpts == [] then Sense(Refused, [], [503], st)
      else if |m| > MAX_MESSAGE then Sense(Message(None), [], [354, 552], State(st.from, []))
      else Sense(Message(Some(m)), [Delivery(st.from, st.rcpts, m)], [354, 250], State(st.from, []))
    case Forget(_) => Sense(Cleared, [], [250], State(st.from, []))
    case Chat(_) => Sense(Idle, [], [250], st)
    case Inquire(_) => Sense(Idle, [], [252], st)
    case Babble(_) => Sense(Idle, [], [500], st)
  }

  function SayAll(items: seq<Item>, st: State): Bytes {
    if items == [] then [] else Say(items[0], st) + SayAll(items[1..], Mean(items[0], st).state)
  }

  datatype Senses = Senses(trace: seq<Event>, deliveries: seq<Delivery>, replies: seq<nat>, state: State)

  function MeanAll(items: seq<Item>, st: State): Senses {
    if items == [] then Senses([], [], [], st)
    else
      var m := Mean(items[0], st);
      var more := MeanAll(items[1..], m.state);
      Senses([m.event] + more.trace, m.delivery + more.deliveries, m.replies + more.replies, more.state)
  }

  /** The server takes one turn on one item, and it is the turn the client meant. */
  ghost predicate Understood(i: Item, st: State, rest: Bytes) {
    && Say(i, st) + rest != []
    && var t := NextTurn(Say(i, st) + rest, st);
       Sense(t.event, t.delivery, t.replies, t.state) == Mean(i, st) && t.rest == rest
  }

  lemma {:induction false} AddressRead(word: string, verb: string, path: Path)
    requires word in VERBS && Upper(verb) == word && SoundPath(path) && ReadWhole(verb + Spell(path))
    requires word == "MAIL FROM" || word == "RCPT TO"
    ensures Parse(LineText(Line(verb + Spell(path)))) == if word == "MAIL FROM" then MailFrom(Meant(path)) else RcptTo(Meant(path))
  {
    hide Line;
    hide LineText;
    hide Parse;
    hide ExtractAngle;
    var text := verb + Spell(path);
    LineTextOf(text);
    forall i | 0 <= i < |verb| ensures UpperChar(verb[i]) == word[i] && UpperChar(text[i]) == word[i] {
      assert Upper(verb)[i] == word[i] && text[i] == verb[i];
    }
    LettersOnly(word, verb);
    PathRead(verb, path);
    VerbRules(word, text);
  }

  /** A spelling of a verb has no bracket and no colon. */
  lemma {:induction false} LettersOnly(word: string, verb: string)
    requires word == "MAIL FROM" || word == "RCPT TO"
    requires |verb| == |word| && forall i :: 0 <= i < |verb| ==> UpperChar(verb[i]) == word[i]
    ensures '<' !in verb && '>' !in verb && ':' !in verb
  {
    forall i | 0 <= i < |verb| ensures verb[i] != '<' && verb[i] != '>' && verb[i] != ':' {
      assert word[i] != '<' && word[i] != '>' && word[i] != ':';
    }
  }

  lemma {:induction false} AddressUnderstood(i: Item, st: State, rest: Bytes)
    requires Sayable(i) && (i.Mail? || i.Rcpt?)
    ensures Understood(i, st, rest)
  {
    hide NextTurn;
    hide Line;
    hide LineText;
    hide Parse;
    hide SoundPath;
    TurnOnLine(i.verb + Spell(i.path), st, rest);
    assert VERBS[2] in VERBS && VERBS[3] in VERBS;
    AddressRead(if i.Mail? then "MAIL FROM" else "RCPT TO", i.verb, i.path);
  }

  /** A line led by a verb is obeyed as that verb, whatever its length. */
  lemma {:induction false} VerbObeyed(verb: string, line: string, st: State, rest: Bytes)
    requires verb in VERBS && |verb| == 4 && Leads(verb, line) && '\n' !in line
    requires forall i :: 0 <= i < |verb| ==> 'A' <= verb[i] <= 'Z'
    ensures Line(line) + rest != []
    ensures NextTurn(Line(line) + rest, st) == Obey(Meaning(verb, ""), st, rest)
  {
    hide NextTurn;
    hide Line;
    hide LineText;
    hide Parse;
    hide ExtractAngle;
    var p := line[..4];
    EncodeSize(p);
    assert UpperChar(p[3]) == verb[3];
    LineTextPrefix(p, line[4..]);
    assert p + line[4..] == line;
    var t := LineText(Line(line));
    assert forall i :: 0 <= i < 4 ==> t[..4][i] == p[i] && t[i] == t[..4][i];
    VerbRules(verb, t);
    TurnOnLine(line, st, rest);
  }

  const FOUR_LETTERS := {"DATA", "RSET", "NOOP", "EHLO", "HELO", "VRFY", "EXPN", "QUIT"}

  lemma {:induction false} FourLetters(verb: string)
    requires verb in FOUR_LETTERS
    ensures verb in VERBS && |verb| == 4 && forall i :: 0 <= i < |verb| ==> 'A' <= verb[i] <= 'Z'
  {
    assert VERBS[0] == "EHLO" && VERBS[1] == "HELO" && VERBS[4] == "DATA" && VERBS[5] == "RSET";
    assert VERBS[6] == "NOOP" && VERBS[7] == "QUIT" && VERBS[8] == "VRFY" && VERBS[9] == "EXPN";
  }

  lemma {:induction false} FourObeyed(verb: string, line: string, st: State, rest: Bytes)
    requires verb in FOUR_LETTERS && Leads(verb, line) && '\n' !in line
    ensures Line(line) + rest != []
    ensures NextTurn(Line(line) + rest, st) == Obey(Meaning(verb, ""), st, rest)
  {
    hide NextTurn;
    hide Line;
    hide Leads;
    hide Obey;
    hide Meaning;
    FourLetters(verb);
    VerbObeyed(verb, line, st, rest);
  }

  lemma {:induction false} LineUnderstood(i: Item, st: State, rest: Bytes)
    requires Sayable(i) && (i.Forget? || i.Chat? || i.Inquire?)
    ensures Understood(i, st, rest)
  {
    hide NextTurn;
    hide Line;
    hide Leads;
    var verb := VerbOf(i);
    FourObeyed(verb, i.line, st, rest);
  }

  lemma {:induction false} VerbOf(i: Item) returns (verb: string)
    requires Sayable(i) && (i.Forget? || i.Chat? || i.Inquire?)
    ensures verb in {"RSET", "NOOP", "EHLO", "HELO", "VRFY", "EXPN"} && Leads(verb, i.line) && '\n' !in i.line
    ensures var c := Meaning(verb, ""); if i.Forget? then c == Reset else if i.Chat? then c == Noop || c == Hello else c == Verify
  {
    hide Leads;
    if i.Forget? {
      verb :| verb in {"RSET"} && Leads(verb, i.line);
    } else if i.Chat? {
      verb :| verb in {"NOOP", "EHLO", "HELO"} && Leads(verb, i.line);
    } else {
      verb :| verb in {"VRFY", "EXPN"} && Leads(verb, i.line);
    }
  }

  lemma {:induction false} BabbleUnderstood(i: Item, st: State, rest: Bytes)
    requires Sayable(i) && i.Babble?
    ensures Understood(i, st, rest)
  {
    hide NextTurn;
    hide Line;
    hide LineText;
    hide Parse;
    hide Leads;
    LineTextOf(i.line);
    NoVerb(i.line);
    TurnOnLine(i.line, st, rest);
  }

  lemma {:induction false} SendUnderstood(i: Item, st: State, rest: Bytes)
    requires Sayable(i) && i.Send?
    ensures Understood(i, st, rest)
  {
    hide NextTurn;
    hide Line;
    hide Leads;
    var body := if st.rcpts == [] then [] else Stuff(i.message) + END;
    FourObeyed("DATA", i.line, st, body + rest);
    Glue(Line(i.line), body, rest);
    if st.rcpts == [] {
      assert body + rest == rest;
    } else {
      ObeySend(i, st, rest);
    }
  }

  lemma {:induction false} ObeySend(i: Item, st: State, rest: Bytes)
    requires i.Send? && Whole(i.message) && st.rcpts != []
    ensures var t := Obey(Data, st, Stuff(i.message) + END + rest);
            Sense(t.event, t.delivery, t.replies, t.state) == Mean(i, st) && t.rest == rest
  {
    DataConsumed(i.message, rest);
  }

  lemma {:induction false} ItemUnderstood(i: Item, st: State, rest: Bytes)
    requires Sayable(i)
    ensures Understood(i, st, rest)
  {
    hide Understood;
    match i
    case Mail(_, _) => AddressUnderstood(i, st, rest);
    case Rcpt(_, _) => AddressUnderstood(i, st, rest);
    case Send(_, _) => SendUnderstood(i, st, rest);
    case Forget(_) => LineUnderstood(i, st, rest);
    case Chat(_) => LineUnderstood(i, st, rest);
    case Inquire(_) => LineUnderstood(i, st, rest);
    case Babble(_) => BabbleUnderstood(i, st, rest);
  }

  /** SESSION. Whatever a client says, in any order and letter case, the server understands item by item: the trace is
      exactly one event for each item, so no byte of a message is ever taken for a command, the replies are those of the
      items in order, and behind the script the server goes on with the rest of the stream. */
  lemma {:induction false} ScriptUnderstood(items: seq<Item>, st: State, tail: Bytes)
    requires forall i :: 0 <= i < |items| ==> Sayable(items[i])
    ensures var out, m := Session(SayAll(items, st) + tail, st), MeanAll(items, st);
            var after := Session(tail, m.state);
            && out.trace == m.trace + after.trace && |m.trace| == |items|
            && out.deliveries == m.deliveries + after.deliveries
            && out.replies == m.replies + after.replies
            && out.rest == after.rest
    decreases |items|
  {
    hide Sayable;
    hide Understood;
    if items == [] {
      assert SayAll(items, st) + tail == tail;
    } else {
      var m, more := Mean(items[0], st), items[1..];
      var rest := SayAll(more, m.state) + tail;
      ScriptUnderstood(more, m.state, tail);
      ItemUnderstood(items[0], st, rest);
      StepUnderstood(items[0], st, rest);
      var after, senses := Session(tail, MeanAll(items, st).state), MeanAll(more, m.state);
      Glue(Say(items[0], st), SayAll(more, m.state), tail);
      Glue([m.event], senses.trace, after.trace);
      Glue(m.delivery, senses.deliveries, after.deliveries);
      Glue(m.replies, senses.replies, after.replies);
    }
  }

  lemma {:induction false} StepUnderstood(i: Item, st: State, rest: Bytes)
    requires Understood(i, st, rest)
    ensures var out, m, after := Session(Say(i, st) + rest, st), Mean(i, st), Session(rest, Mean(i, st).state);
            && out.trace == [m.event] + after.trace
            && out.deliveries == m.delivery + after.deliveries
            && out.replies == m.replies + after.replies
            && out.rest == after.rest
  {
    hide NextTurn;
    hide Say;
    Unfold(Say(i, st) + rest, st);
  }

  lemma {:induction false} Unfold(s: Bytes, st: State)
    requires s != [] && !NextTurn(s, st).event.Ended?
    ensures var t := NextTurn(s, st);
            var out, after := Session(s, st), Session(t.rest, t.state);
            && out.trace == [t.event] + after.trace
            && out.deliveries == t.delivery + after.deliveries
            && out.replies == t.replies + after.replies
            && out.rest == after.rest
  {
  }

  /** QUIT. A line that says so, in any letter case, ends the session there, and is the last to be answered. */
  lemma {:induction false} QuitEnds(line: string, st: State, tail: Bytes)
    requires LedBy(line, {"QUIT"})
    ensures Session(Line(line) + tail, st) == Output([Ended], [], [221], tail)
  {
    hide NextTurn;
    hide Line;
    hide Leads;
    FourObeyed("QUIT", line, st, tail);
  }

  // ---- Transactions ----

  /** What counts for deliveries. */
  datatype Act = From(addr: string) | To(addr: string) | Hand(message: Bytes) | Drop

  function Acts(items: seq<Item>): seq<Act> {
    if items == [] then []
    else
      (match items[0]
       case Mail(_, path) => [From(Meant(path))]
       case Rcpt(_, path) => [To(Meant(path))]
       case Send(_, m) => [Hand(m)]
       case Forget(_) => [Drop]
       case _ => []) + Acts(items[1..])
  }

  function Recipients(addrs: seq<string>): seq<Act> {
    if addrs == [] then [] else [To(addrs[0])] + Recipients(addrs[1..])
  }

  /** Transactions, one after the other. */
  function Script(ds: seq<Delivery>): seq<Act> {
    if ds == [] then []
    else [From(ds[0].from)] + (Recipients(ds[0].rcpts) + ([Hand(ds[0].message)] + Script(ds[1..])))
  }

  /** The deliveries these acts come to. */
  function Delivered(acts: seq<Act>, st: State): seq<Delivery> {
    if acts == [] then []
    else
      match acts[0]
      case From(addr) => Delivered(acts[1..], State(addr, []))
      case To(addr) => Delivered(acts[1..], State(st.from, st.rcpts + [addr]))
      case Drop => Delivered(acts[1..], State(st.from, []))
      case Hand(m) =>
        if st.rcpts == [] then Delivered(acts[1..], st)
        else (if |m| > MAX_MESSAGE then [] else [Delivery(st.from, st.rcpts, m)])
             + Delivered(acts[1..], State(st.from, []))
  }

  lemma {:induction false} ActsCount(items: seq<Item>, st: State)
    ensures MeanAll(items, st).deliveries == Delivered(Acts(items), st)
    decreases |items|
  {
    if items != [] {
      ActsCount(items[1..], Mean(items[0], st).state);
      assert items[0].Chat? || items[0].Inquire? || items[0].Babble? || Acts(items)[1..] == Acts(items[1..]);
      if items[0].Chat? || items[0].Inquire? || items[0].Babble? {
        assert Acts(items) == Acts(items[1..]);
      }
    }
  }

  lemma {:induction false} RecipientsCount(addrs: seq<string>, st: State, more: seq<Act>)
    ensures Delivered(Recipients(addrs) + more, st) == Delivered(more, State(st.from, st.rcpts + addrs))
    decreases |addrs|
  {
    if addrs == [] {
      assert st.rcpts + addrs == st.rcpts;
      assert Recipients(addrs) + more == more;
    } else {
      RecipientsCount(addrs[1..], State(st.from, st.rcpts + [addrs[0]]), more);
      assert st.rcpts + [addrs[0]] + addrs[1..] == st.rcpts + addrs;
      assert (Recipients(addrs) + more)[1..] == Recipients(addrs[1..]) + more;
    }
  }

  lemma {:induction false} ScriptCounts(ds: seq<Delivery>, st: State)
    requires forall i :: 0 <= i < |ds| ==> ds[i].rcpts != [] && |ds[i].message| <= MAX_MESSAGE
    ensures Delivered(Script(ds), st) == ds
    decreases |ds|
  {
    if ds != [] {
      var d, tail := ds[0], [Hand(ds[0].message)] + Script(ds[1..]);
      assert Script(ds)[1..] == Recipients(d.rcpts) + tail;
      RecipientsCount(d.rcpts, State(d.from, []), tail);
      assert [] + d.rcpts == d.rcpts;
      assert tail[1..] == Script(ds[1..]);
      ScriptCounts(ds[1..], State(d.from, []));
    }
  }

  /** MAIL. For every list of transactions with at least one recipient each and messages within the cap, spoken in order,
      in any letter case and with any form of address, with lines the server only answers anywhere between the commands,
      the server hands on exactly those senders, recipients and messages, in that order. It answers each item, and after
      QUIT it reads no further. */
  lemma {:induction false} TransactionsDelivered(ds: seq<Delivery>, items: seq<Item>, quit: string, tail: Bytes)
    requires forall i :: 0 <= i < |ds| ==> ds[i].rcpts != [] && |ds[i].message| <= MAX_MESSAGE
    requires forall i :: 0 <= i < |items| ==> Sayable(items[i])
    requires Acts(items) == Script(ds) && LedBy(quit, {"QUIT"})
    ensures var out := Session(SayAll(items, START) + (Line(quit) + tail), START);
            out.deliveries == ds && out.replies == MeanAll(items, START).replies + [221] && out.rest == tail
    ensures Session(SayAll(items, START), START).deliveries == ds
  {
    hide Sayable;
    hide NextTurn;
    hide Line;
    ScriptCounts(ds, START);
    ActsCount(items, START);
    ScriptUnderstood(items, START, []);
    assert SayAll(items, START) + [] == SayAll(items, START);
    ScriptUnderstood(items, START, Line(quit) + tail);
    QuitEnds(quit, MeanAll(items, START).state, tail);
  }

  // ---- Every stream: deliveries from history ----

  predicate Clears(e: Event) { e.Sender? || e.Cleared? || e.Message? }

  /** Just behind the last event that clears the recipients. */
  function LastClear(h: seq<Event>): (n: nat)
    ensures n <= |h| && (n > 0 ==> Clears(h[n - 1])) && forall i :: n <= i < |h| ==> !Clears(h[i])
  {
    if h == [] then 0 else if Clears(h[|h| - 1]) then |h| else LastClear(h[..|h| - 1])
  }

  function Addresses(h: seq<Event>): seq<string> {
    if h == [] then []
    else Addresses(h[..|h| - 1]) + if h[|h| - 1].Recipient? then [h[|h| - 1].addr] else []
  }

  /** The addresses accepted since the last MAIL FROM, RSET or completed DATA. */
  function RecipientsAt(h: seq<Event>): seq<string> { Addresses(h[LastClear(h)..]) }

  /** The address of the latest MAIL FROM. */
  function SenderAt(h: seq<Event>): string {
    if h == [] then "" else if h[|h| - 1].Sender? then h[|h| - 1].addr else SenderAt(h[..|h| - 1])
  }

  /** The deliveries a trace accounts for, given the history before it. */
  function Accounted(h: seq<Event>, trace: seq<Event>): seq<Delivery>
    decreases |trace|
  {
    if trace == [] then []
    else (if trace[0].Message? && trace[0].read.Some?
          then [Delivery(SenderAt(h), RecipientsAt(h), trace[0].read.value)] else [])
         + Accounted(h + [trace[0]], trace[1..])
  }

  lemma {:induction false} HistoryStep(h: seq<Event>, e: Event)
    ensures RecipientsAt(h + [e]) == if Clears(e) then [] else RecipientsAt(h) + if e.Recipient? then [e.addr] else []
    ensures SenderAt(h + [e]) == if e.Sender? then e.addr else SenderAt(h)
  {
    var h' := h + [e];
    assert h'[..|h|] == h;
    if !Clears(e) {
      var n := LastClear(h);
      assert h'[n..] == h[n..] + [e];
      assert h'[n..][..|h'[n..]| - 1] == h[n..];
    }
  }

  /** What a turn hands on and how it moves the state, by its event alone. */
  ghost predicate Fits(t: Turn, st: State) {
    && t.state.rcpts == (if Clears(t.event) then [] else st.rcpts + if t.event.Recipient? then [t.event.addr] else [])
    && t.state.from == (if t.event.Sender? then t.event.addr else st.from)
    && t.delivery == (if t.event.Message? && t.event.read.Some?
                      then [Delivery(st.from, st.rcpts, t.event.read.value)] else [])
    && (t.event.Message? ==> st.rcpts != [])
    && (t.event.Ended? ==> t.delivery == [])
  }

  lemma {:induction false} TurnFits(s: Bytes, st: State)
    requires s != []
    ensures Fits(NextTurn(s, st), st)
  {
    var n := LineLength(s);
    ObeyFits(Parse(LineText(s[..n])), st, s[n..]);
  }

  lemma {:induction false} ObeyFits(c: Command, st: State, rest: Bytes)
    ensures Fits(Obey(c, st, rest), st)
  {
  }

  lemma {:induction false} HistoryAccounts(h: seq<Event>, s: Bytes, st: State)
    requires st == State(SenderAt(h), RecipientsAt(h))
    ensures var out := Session(s, st);
            && out.deliveries == Accounted(h, out.trace)
            && forall i :: 0 <= i < |out.deliveries| ==> out.deliveries[i].rcpts != []
    decreases |s|
  {
    hide NextTurn;
    if s != [] {
      var t := NextTurn(s, st);
      TurnFits(s, st);
      HistoryStep(h, t.event);
      if t.event.Ended? {
        assert Accounted(h, [t.event]) == [];
      } else {
        HistoryAccounts(h + [t.event], t.rest, t.state);
        Unfold(s, st);
        var more := Session(t.rest, t.state).trace;
        assert ([t.event] + more)[1..] == more;
      }
    }
  }

  /** HISTORY. For every byte stream at all, the deliveries are the completed messages in order, each with the
      latest MAIL FROM address and the recipients accepted since the last MAIL FROM, RSET or completed DATA,
      and never without a recipient. */
  lemma {:induction false} DeliveriesAccounted(s: Bytes)
    ensures var out := Session(s, START);
            && out.deliveries == Accounted([], out.trace)
            && forall i :: 0 <= i < |out.deliveries| ==> out.deliveries[i].rcpts != []
  {
    HistoryAccounts([], s, START);
  }
}
