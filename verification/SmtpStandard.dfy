/** The DATA reader against the mail standard. Sections 2.3.8, 4.1.1.4 and 4.5.2 of RFC 5321: lines end in CR LF and
    nothing else, a line that is a lone dot ends the message, and of any other line that begins with a dot the dot
    is deleted. A message whose end never comes is none (section 4.1.1.10). */
module SmtpStandard {
  import opened Options
  import opened Sequences
  import opened Utf8
  import opened Smtp
  import opened SmtpTheorems

  // ---- The standard's reader ----

  /** The length of the first line: through the first CR LF. */
  function CrLfLine(s: Bytes): (n: Option<nat>)
    ensures n.Some? ==> 2 <= n.value <= |s|
  {
    if |s| < 2 then None
    else if s[0] == CR && s[1] == LF then Some(2)
    else
      var more := CrLfLine(s[1..]);
      if more.None? then None else Some(more.value + 1)
  }

  function StdUnstuff(line: Bytes): Bytes {
    if [DOT] <= line then line[1..] else line
  }

  /** Text in front of what was read. */
  function Prepend(x: Bytes, r: Option<(Bytes, Bytes)>): Option<(Bytes, Bytes)> {
    if r.None? then None else Some((x + r.value.0, r.value.1))
  }

  /** The message and the stream behind its end. */
  function StdPayload(s: Bytes): Option<(Bytes, Bytes)>
    decreases |s|
  {
    var n := CrLfLine(s);
    if n.None? then None
    else if s[..n.value] == END then Some(([], s[n.value..]))
    else Prepend(StdUnstuff(s[..n.value]), StdPayload(s[n.value..]))
  }

  function StdReadData(s: Bytes): Option<Read> {
    var p := StdPayload(s);
    if p.None? then None
    else Some(Read(if |p.value.0| > MAX_MESSAGE then None else Some(p.value.0), p.value.1))
  }

  // ---- The standard's reader, line by line of the server's ----

  /** The rest of the message, from the start of a line of the standard or from inside one. */
  function StdFrom(s: Bytes, anew: bool): Option<(Bytes, Bytes)> {
    if anew then StdPayload(s)
    else
      var n := CrLfLine(s);
      if n.None? then None else Prepend(s[..n.value], StdPayload(s[n.value..]))
  }

  predicate EndsCrLf(line: Bytes) {
    |line| >= 2 && line[|line| - 2..] == [CR, LF]
  }

  lemma {:induction false} CrLfAt(line: Bytes, rest: Bytes)
    requires IsLine(line)
    ensures CrLfLine(line + rest) ==
              if EndsCrLf(line) then Some(|line|)
              else if CrLfLine(rest).None? then None else Some(|line| + CrLfLine(rest).value)
  {
    var s := line + rest;
    if |line| == 1 {
      assert s[1..] == rest;
      if |rest| == 0 {
        assert CrLfLine(rest).None?;
      }
    } else {
      var tail := line[1..];
      assert s[1..] == tail + rest;
      assert line[0] in line[..|line| - 1];
      assert tail[..|tail| - 1] == line[..|line| - 1][1..];
      if |line| > 2 {
        assert tail[|tail| - 2..] == line[|line| - 2..];
        assert line[1] in line[..|line| - 1];
      }
      CrLfAt(tail, rest);
    }
  }

  lemma {:induction false} NoLfNoLine(s: Bytes)
    requires LF !in s
    ensures CrLfLine(s).None?
  {
    if |s| >= 2 {
      assert s[1] in s;
      NoLfNoLine(s[1..]);
    }
  }

  /** Past one line of the server's that is not the end for the standard. */
  lemma {:induction false} StdStep(line: Bytes, rest: Bytes, anew: bool)
    requires IsLine(line) && !(anew && line == END)
    ensures StdFrom(line + rest, anew)
         == Prepend(if anew then StdUnstuff(line) else line, StdFrom(rest, EndsCrLf(line)))
  {
    var s := line + rest;
    CrLfAt(line, rest);
    if EndsCrLf(line) {
      assert s[..|line|] == line && s[|line|..] == rest;
    } else if CrLfLine(rest).Some? {
      var n := CrLfLine(rest).value;
      assert s[..|line| + n] == line + rest[..n] && s[|line| + n..] == rest[n..];
      LongerLine(line, rest[..n]);
      if StdPayload(rest[n..]).Some? {
        Glue(StdUnstuff(line), rest[..n], StdPayload(rest[n..]).value.0);
        Glue(line, rest[..n], StdPayload(rest[n..]).value.0);
      }
    }
  }

  /** A line of the standard that begins with a line of the server's. */
  lemma {:induction false} LongerLine(line: Bytes, more: Bytes)
    requires IsLine(line) && !EndsCrLf(line)
    ensures line + more != END && StdUnstuff(line + more) == StdUnstuff(line) + more
  {
    EndIsWhole(line, more);
    if line[0] == DOT {
      assert (line + more)[1..] == line[1..] + more;
    }
  }

  lemma {:induction false} EndIsWhole(line: Bytes, more: Bytes)
    requires IsLine(line)
    ensures line + more == END ==> EndsCrLf(line)
  {
    hide EndsData;
    var s := line + more;
    assert s[|line| - 1] == LF;
    if s == END {
      assert |line| == 3;
      assert line == s;
    }
  }

  lemma {:induction false} StdShorter(s: Bytes)
    requires StdPayload(s).Some?
    ensures |StdPayload(s).value.1| < |s|
    decreases |s|
  {
    var n := CrLfLine(s).value;
    if s[..n] != END {
      StdShorter(s[n..]);
    }
  }

  lemma {:induction false} FromShorter(s: Bytes, anew: bool)
    requires StdFrom(s, anew).Some?
    ensures |StdFrom(s, anew).value.1| < |s|
  {
    if anew {
      StdShorter(s);
    } else {
      StdShorter(s[CrLfLine(s).value..]);
    }
  }

  // ---- The server's payload as the standard sees it ----

  /** The server's terminator: nothing when it ran to the end. */
  function Stop(s: Bytes): Bytes
    decreases |s|
  {
    var n := LineLength(s);
    if n == 0 then [] else if EndsData(s[..n]) then s[..n] else Stop(s[n..])
  }

  /** Whether a line of the standard begins behind these. */
  predicate AnewAfter(lines: seq<Bytes>, anew: bool) {
    if lines == [] then anew else AnewAfter(lines[1..], EndsCrLf(lines[0]))
  }

  /** What the standard makes of the server's lines. */
  function StdData(lines: seq<Bytes>, anew: bool): Bytes {
    if lines == [] then []
    else (if anew then StdUnstuff(lines[0]) else lines[0]) + StdData(lines[1..], EndsCrLf(lines[0]))
  }

  /** Lines of the standard that begin with one dot, not two: the server keeps it. */
  function Lone(lines: seq<Bytes>, anew: bool): nat {
    if lines == [] then 0
    else (if anew && LoneDot(lines[0]) then 1 else 0) + Lone(lines[1..], EndsCrLf(lines[0]))
  }

  /** Two dots behind a bare LF: the server drops one. */
  function Doubled(lines: seq<Bytes>, anew: bool): nat {
    if lines == [] then 0
    else (if !anew && [DOT, DOT] <= lines[0] then 1 else 0) + Doubled(lines[1..], EndsCrLf(lines[0]))
  }

  /** Where the server stops is the end for the standard too, or the standard reads on, or never ends. */
  lemma {:induction false} Follows(s: Bytes, anew: bool)
    ensures var (lines, rest) := Payload(s);
            if Stop(s) == END && AnewAfter(lines, anew) then StdFrom(s, anew) == Some((StdData(lines, anew), rest))
            else StdFrom(s, anew).Some? ==> |StdFrom(s, anew).value.1| < |rest|
    decreases |s|
  {
    var n := LineLength(s);
    if n == 0 {
      NoLfNoLine(s);
    } else {
      var line, t := s[..n], s[n..];
      FirstLine(s);
      Halves(s, n);
      if !IsLine(line) {
        assert line == s && t == [];
        NoLfNoLine(s);
        NoLineEnds(s);
      } else if EndsData(line) {
        FollowsEnd(line, t, anew);
      } else {
        Follows(t, EndsCrLf(line));
        StdStep(line, t, anew);
        var (lines, rest) := Payload(t);
        assert ([line] + lines)[1..] == lines;
      }
    }
  }

  lemma {:induction false} FollowsEnd(line: Bytes, rest: Bytes, anew: bool)
    requires IsLine(line) && EndsData(line)
    ensures if line == END && anew then StdFrom(line + rest, anew) == Some(([], rest))
            else StdFrom(line + rest, anew).Some? ==> |StdFrom(line + rest, anew).value.1| < |rest|
  {
    if line == END && anew {
      CrLfAt(line, rest);
      assert EndsCrLf(END);
      assert (line + rest)[..|line|] == line && (line + rest)[|line|..] == rest;
    } else {
      StdStep(line, rest, anew);
      if StdFrom(rest, EndsCrLf(line)).Some? {
        FromShorter(rest, EndsCrLf(line));
      }
    }
  }

  /** Without a line end the server does not stop at a terminator of the standard. */
  lemma {:induction false} NoLineEnds(s: Bytes)
    requires LF !in s
    ensures Stop(s) != END
  {
    var n := LineLength(s);
    if n > 0 {
      assert LF !in s[..n];
      assert s[..n] == s && s[n..] == [];
      assert LF in END;
    }
  }

  // ---- Agreement ----

  /** A terminator of the standard means that only whole lines came before. */
  lemma {:induction false} WholeLines(s: Bytes)
    requires Stop(s) == END
    ensures forall i :: 0 <= i < |Payload(s).0| ==> IsLine(Payload(s).0[i]) && !EndsData(Payload(s).0[i])
    decreases |s|
  {
    var n := LineLength(s);
    FirstLine(s);
    if !EndsData(s[..n]) {
      WholeLines(s[n..]);
      NothingBehind(s, n);
    }
  }

  lemma {:induction false} NothingBehind(s: Bytes, n: nat)
    requires n <= |s|
    ensures n == |s| ==> s[n..] == []
  {
  }

  /** Where the dots of a line run out. */
  lemma {:induction false} LastDot(line: Bytes) returns (j: nat)
    requires line != [] && line[0] == DOT && line[|line| - 1] != DOT
    ensures j + 1 < |line| && line[j] == DOT && line[j + 1] != DOT
  {
    if line[1] != DOT {
      j := 0;
    } else {
      var i := LastDot(line[1..]);
      j := i + 1;
    }
  }

  /** The two readers make the same of lines exactly when they delete the same dots. */
  lemma {:induction false} DataApart(lines: seq<Bytes>, anew: bool)
    requires forall i :: 0 <= i < |lines| ==> IsLine(lines[i]) && !EndsData(lines[i])
    ensures |StdData(lines, anew)| + Lone(lines, anew) == |Unstuffed(lines)| + Doubled(lines, anew)
    ensures StdData(lines, anew) == Unstuffed(lines) <==> Lone(lines, anew) == 0 && Doubled(lines, anew) == 0
  {
    if lines != [] {
      var line, tail := lines[0], lines[1..];
      DataApart(tail, EndsCrLf(line));
      LineApart(line, anew, StdData(tail, EndsCrLf(line)), Unstuffed(tail));
    }
  }

  lemma {:induction false} LineApart(line: Bytes, anew: bool, a: Bytes, b: Bytes)
    requires IsLine(line) && !EndsData(line)
    ensures var x, y := if anew then StdUnstuff(line) else line, Unstuff(line);
            && |x| + (if anew && LoneDot(line) then 1 else 0) == |y| + (if !anew && [DOT, DOT] <= line then 1 else 0)
            && (x + a == y + b <==> x == y && a == b)
            && (x == y <==> !(anew && LoneDot(line)) && !(!anew && [DOT, DOT] <= line))
  {
    var x, y := if anew then StdUnstuff(line) else line, Unstuff(line);
    if anew && LoneDot(line) {
      assert (x + a)[0] == line[1] && (y + b)[0] == DOT;
      assert line[..2] != [DOT, DOT];
      assert line[1] != DOT;
      assert x[0] != y[0];
    } else if !anew && [DOT, DOT] <= line {
      var j := LastDot(line);
      assert (x + a)[j] == line[j] && (y + b)[j] == line[j + 1];
      assert |x| != |y|;
    } else {
      Cancel(x, a, b);
    }
  }

  lemma {:induction false} Cancel(x: Bytes, a: Bytes, b: Bytes)
    ensures x + a == x + b <==> a == b
  {
    if x + a == x + b {
      assert a == (x + a)[|x|..] && b == (x + b)[|x|..];
    }
  }

  /** The server stops at a dot line of the standard. */
  predicate StopsRight(s: Bytes) { Stop(s) == END && AnewAfter(Payload(s).0, true) }

  /** Both delete the same dots. */
  predicate SameDots(lines: seq<Bytes>) { Lone(lines, true) == 0 && Doubled(lines, true) == 0 }

  /** Both find the message too big. */
  predicate BothTooBig(lines: seq<Bytes>) {
    |Unstuffed(lines)| > MAX_MESSAGE && |Unstuffed(lines)| + Doubled(lines, true) > MAX_MESSAGE + Lone(lines, true)
  }

  /** STANDARD. For every byte stream at all the server reads what the standard says exactly when it stops at `.` CR
      LF behind a CR LF (or at once), and no line begins with a lone dot, and no two dots follow a bare LF (or the
      message is too big either way). */
  lemma {:induction false} StandardAgrees(s: Bytes)
    ensures StdReadData(s) == Some(ReadData(s)) <==>
              StopsRight(s) && (SameDots(Payload(s).0) || BothTooBig(Payload(s).0))
  {
    hide StdPayload;
    hide Payload;
    hide Stop;
    Follows(s, true);
    if StopsRight(s) {
      WholeLines(s);
      DataApart(Payload(s).0, true);
    }
  }

  // ---- Streams without a bare LF ----

  /** Every LF follows a CR. */
  predicate NoBareLf(s: Bytes) {
    forall i :: 0 <= i < |s| && s[i] == LF ==> i > 0 && s[i - 1] == CR
  }

  lemma {:induction false} FirstEndsCrLf(s: Bytes, n: nat)
    requires NoBareLf(s) && n <= |s| && IsLine(s[..n])
    ensures EndsCrLf(s[..n])
  {
    assert s[n - 1] == LF;
    assert s[..n][n - 2..] == [CR, LF];
  }

  lemma {:induction false} LinesCrLf(s: Bytes)
    requires NoBareLf(s) && Stop(s) == END
    ensures forall i :: 0 <= i < |Payload(s).0| ==> EndsCrLf(Payload(s).0[i])
    decreases |s|
  {
    hide NoBareLf;
    hide EndsCrLf;
    hide EndsData;
    hide LineLength;
    var n := LineLength(s);
    FirstLine(s);
    if !EndsData(s[..n]) {
      NothingBehind(s, n);
      FirstEndsCrLf(s, n);
      NoBareTail(s, n);
      LinesCrLf(s[n..]);
    }
  }

  lemma {:induction false} NoBareTail(s: Bytes, n: nat)
    requires NoBareLf(s) && 0 < n <= |s| && s[n - 1] == LF
    ensures NoBareLf(s[n..])
  {
    forall i | 0 <= i < |s[n..]| && s[n..][i] == LF
      ensures i > 0 && s[n..][i - 1] == CR
    {
      assert s[n..][i] == s[n + i];
    }
  }

  /** How many lines begin with one dot, not two. */
  function LoneDots(lines: seq<Bytes>): nat {
    if lines == [] then 0 else (if LoneDot(lines[0]) then 1 else 0) + LoneDots(lines[1..])
  }

  lemma {:induction false} AllAnew(lines: seq<Bytes>)
    requires forall i :: 0 <= i < |lines| ==> EndsCrLf(lines[i])
    ensures AnewAfter(lines, true) && Doubled(lines, true) == 0 && Lone(lines, true) == LoneDots(lines)
  {
    if lines != [] {
      AllAnew(lines[1..]);
    }
  }

  /** CRLF. On a stream whose every LF follows a CR the two agree exactly when the message ends in `.` CR LF and
      none of its lines begins with a lone dot (or it is too big either way). */
  lemma {:induction false} CrLfAgrees(s: Bytes)
    requires NoBareLf(s)
    ensures StdReadData(s) == Some(ReadData(s)) <==>
              && Stop(s) == END
              && (LoneDots(Payload(s).0) == 0 || |Unstuffed(Payload(s).0)| > MAX_MESSAGE + LoneDots(Payload(s).0))
  {
    hide StdReadData;
    hide ReadData;
    StandardAgrees(s);
    if Stop(s) == END {
      LinesCrLf(s);
      AllAnew(Payload(s).0);
    }
  }

  // ---- Stuffed messages ----

  function StuffLines(m: Bytes): seq<Bytes>
    decreases |m|
  {
    var n := LineLength(m);
    if n == 0 then [] else [StuffLine(m[..n])] + StuffLines(m[n..])
  }

  lemma {:induction false} StopPast(line: Bytes, rest: Bytes)
    requires IsLine(line)
    ensures EndsData(line) ==> Payload(line + rest) == ([], rest) && Stop(line + rest) == line
    ensures !EndsData(line) ==>
              Payload(line + rest) == ([line] + Payload(rest).0, Payload(rest).1) && Stop(line + rest) == Stop(rest)
  {
    hide EndsData;
    LineThen(line, rest);
  }

  lemma {:induction false} StuffedPayload(m: Bytes, tail: Bytes, rest: Bytes)
    requires Whole(m) && Payload(tail) == ([], rest) && Stop(tail) == END
    ensures Payload(Stuff(m) + tail) == (StuffLines(m), rest) && Stop(Stuff(m) + tail) == END
    decreases |m|
  {
    if m == [] {
      assert Stuff(m) + tail == tail;
    } else {
      hide Payload;
      hide Stop;
      var n := LineLength(m);
      FirstLine(m);
      StuffedPayload(m[n..], tail, rest);
      StuffedLine(m[..n]);
      StopPast(StuffLine(m[..n]), Stuff(m[n..]) + tail);
      Glue(StuffLine(m[..n]), Stuff(m[n..]), tail);
    }
  }

  /** No stuffed line begins with a lone dot, and stuffing keeps line ends. */
  lemma {:induction false} StuffedLines(m: Bytes, anew: bool)
    requires Whole(m)
    ensures Lone(StuffLines(m), anew) == 0
    ensures AnewAfter(StuffLines(m), anew) <==> if m == [] then anew else EndsCrLf(m)
    decreases |m|
  {
    if m != [] {
      var n := LineLength(m);
      FirstLine(m);
      StuffedLine(m[..n]);
      StuffedEnd(m[..n]);
      StuffedLines(m[n..], EndsCrLf(StuffLine(m[..n])));
      LastLineEnds(m, n);
    }
  }

  lemma {:induction false} StuffedEnd(line: Bytes)
    requires IsLine(line)
    ensures EndsCrLf(StuffLine(line)) <==> EndsCrLf(line)
  {
    if line[0] == DOT && |line| >= 2 {
      assert StuffLine(line)[|line| - 1..] == line[|line| - 2..];
    }
  }

  lemma {:induction false} LastLineEnds(m: Bytes, n: nat)
    requires Whole(m) && 0 < n <= |m| && IsLine(m[..n])
    ensures EndsCrLf(m) <==> if n == |m| then EndsCrLf(m[..n]) else EndsCrLf(m[n..])
  {
    if n == |m| {
      assert m[..n] == m;
    } else if |m| - n >= 2 {
      assert m[n..][|m| - n - 2..] == m[|m| - 2..];
    } else {
      assert m[|m| - 2] == m[..n][n - 1];
    }
  }

  /** STUFFED. On a stuffed message of whole lines the two agree exactly when it ends in CR LF (or is empty) and
      none of its lines behind a bare LF begins with a dot (or it is too big). */
  lemma {:induction false} StuffedAgrees(m: Bytes, rest: Bytes)
    requires Whole(m)
    ensures var s := Stuff(m) + (END + rest);
            StdReadData(s) == Some(ReadData(s)) <==>
              (m == [] || EndsCrLf(m)) && (Doubled(StuffLines(m), true) == 0 || |m| > MAX_MESSAGE)
  {
    hide StdReadData;
    hide ReadData;
    hide Stuff;
    StopPast(END, rest);
    StuffedPayload(m, END + rest, rest);
    StuffUnstuff(m, rest);
    StuffedLines(m, true);
    StandardAgrees(Stuff(m) + (END + rest));
  }

  /** So they agree on every message of the standard, whose lines all end in CR LF. */
  lemma {:induction false} StuffedCrLfAgrees(m: Bytes, rest: Bytes)
    requires Whole(m) && NoBareLf(m)
    ensures StdReadData(Stuff(m) + (END + rest)) == Some(ReadData(Stuff(m) + (END + rest)))
  {
    hide StdReadData;
    hide ReadData;
    hide Stuff;
    StuffedAgrees(m, rest);
    StuffedCrLf(m);
    AllAnew(StuffLines(m));
    if m != [] {
      assert m[|m| - 2..] == [CR, LF];
    }
  }

  lemma {:induction false} StuffedCrLf(m: Bytes)
    requires Whole(m) && NoBareLf(m)
    ensures forall i :: 0 <= i < |StuffLines(m)| ==> EndsCrLf(StuffLines(m)[i])
    decreases |m|
  {
    if m != [] {
      var n := LineLength(m);
      FirstLine(m);
      NoBareTail(m, n);
      StuffedCrLf(m[n..]);
      FirstEndsCrLf(m, n);
      StuffedEnd(m[..n]);
    }
  }

  // ---- At particular streams ----

  const A: Byte := 97
  const B: Byte := 98

  lemma {:induction false} StdPast(line: Bytes, rest: Bytes)
    requires IsLine(line) && EndsCrLf(line)
    ensures StdPayload(line + rest) == if line == END then Some(([], rest)) else Prepend(StdUnstuff(line), StdPayload(rest))
  {
    CrLfAt(line, rest);
    assert (line + rest)[..|line|] == line && (line + rest)[|line|..] == rest;
  }

  /** A line that begins with a lone dot: the server keeps the dot. */
  lemma {:induction false} LoneDotKept()
    ensures var line: Bytes := [DOT, A, CR, LF];
            && ReadData(line + END) == Read(Some(line), [])
            && StdReadData(line + END) == Some(Read(Some([A, CR, LF]), []))
  {
    hide StdPayload;
    hide Payload;
    var line: Bytes := [DOT, A, CR, LF];
    assert IsLine(line) && EndsCrLf(line) && !EndsData(line) && IsLine(END) && EndsCrLf(END);
    assert END + [] == END;
    StopPast(END, []);
    StopPast(line, END);
    StdPast(END, []);
    StdPast(line, END);
    OneLineRead(line);
    assert line[..2][1] == A;
    assert StdUnstuff(line) == [A, CR, LF] && StdUnstuff(line) + [] == StdUnstuff(line);
  }

  lemma {:induction false} OneLineRead(line: Bytes)
    ensures Unstuffed([line] + []) == Unstuff(line)
  {
    assert [line] + [] == [line];
    var none: seq<Bytes> := [];
    assert [line][1..] == none;
  }

  /** Two bare line feeds do not end a line of the standard. */
  lemma {:induction false} OneStdLine(a: Bytes, d: Bytes, b: Bytes)
    requires IsLine(a) && IsLine(d) && IsLine(b) && !EndsCrLf(a) && !EndsCrLf(d) && EndsCrLf(b) && a[0] != DOT
    ensures StdPayload(a + (d + (b + END))) == Some((a + (d + b), []))
  {
    hide StdPayload;
    assert IsLine(END) && EndsCrLf(END) && END + [] == END;
    StdPast(END, []);
    StdStep(b, END, false);
    StdStep(d, b + END, false);
    StdStep(a, d + (b + END), true);
    assert b + [] == b;
  }

  /** A lone dot between bare LFs: the server ends the message there and takes what follows for commands. */
  lemma {:induction false} BareLfEnds()
    ensures var s: Bytes := [A, LF] + ([DOT, LF] + ([B, CR, LF] + END));
            && ReadData(s) == Read(Some([A, LF]), [B, CR, LF] + END)
            && StdReadData(s) == Some(Read(Some([A, LF] + ([DOT, LF] + [B, CR, LF])), []))
  {
    hide StdPayload;
    hide Payload;
    var a: Bytes, d: Bytes, b: Bytes := [A, LF], [DOT, LF], [B, CR, LF];
    StopPast(d, b + END);
    StopPast(a, d + (b + END));
    OneLineRead(a);
    OneStdLine(a, d, b);
  }

  /** A message cut off by the end of the connection: the server hands it on, to the standard it is none. */
  lemma {:induction false} CutOffDelivered()
    ensures var line: Bytes := [A, CR, LF];
            ReadData(line) == Read(Some(line), []) && StdReadData(line) == None
  {
    hide StdPayload;
    hide Payload;
    var line: Bytes := [A, CR, LF];
    assert IsLine(line) && EndsCrLf(line) && !EndsData(line);
    assert line + [] == line;
    StopPast(line, []);
    StdPast(line, []);
    OneLineRead(line);
    NothingRead();
  }

  lemma {:induction false} NothingRead()
    ensures Payload([]) == ([], []) && StdPayload([]).None?
  {
  }
}
