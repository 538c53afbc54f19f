/** One SMTP connection: the command loop and the DATA reader, sharing one byte stream.

    The stream is everything the client sends until it closes. Handing a message on is an entry in
    the list of deliveries; replies are given by their codes. */
module Smtp {
  import opened Options
  import opened Text
  import opened Utf8

  const MAX_LINE := 8192
  const MAX_MESSAGE := 40 * 1024 * 1024

  // ---- Lines ----

  /** Length of the next line: through the first LF, or to the end of the stream. */
  function LineLength(s: Bytes): (n: nat)
    ensures n <= |s| && (n == 0 <==> s == [])
    ensures LF !in s[..n] ==> n == |s|
    ensures forall i :: 0 <= i < n - 1 ==> s[i] != LF
  {
    if s == [] then 0 else if s[0] == LF then 1 else 1 + LineLength(s[1..])
  }

  // ---- The DATA payload ----

  const DOT: Byte := 46

  predicate EndsData(line: Bytes) {
    line == [DOT, CR, LF] || line == [DOT, LF] || line == [DOT]
  }

  /** A doubled leading dot is reduced to one; a single one stays. */
  function Unstuff(line: Bytes): Bytes {
    if [DOT, DOT] <= line then line[1..] else line
  }

  /** The payload lines, and the stream after the terminator (or the end). */
  function Payload(s: Bytes): (r: (seq<Bytes>, Bytes))
    ensures |r.1| <= |s|
    decreases |s|
  {
    var n := LineLength(s);
    if n == 0 then ([], [])
    else if EndsData(s[..n]) then ([], s[n..])
    else
      var (lines, rest) := Payload(s[n..]);
      ([s[..n]] + lines, rest)
  }

  function Unstuffed(lines: seq<Bytes>): Bytes {
    if lines == [] then [] else Unstuff(lines[0]) + Unstuffed(lines[1..])
  }

  datatype Read = Read(message: Option<Bytes>, rest: Bytes)

  /** The un-stuffed payload, or nothing when it exceeds the cap; the stream position does not depend on which. */
  function ReadData(s: Bytes): Read {
    var (lines, rest) := Payload(s);
    var data := Unstuffed(lines);
    Read(if |data| > MAX_MESSAGE then None else Some(data), rest)
  }

  // ---- Command lines ----

  function UpperChar(c: char): char {
    if 'a' <= c <= 'z' then c - ('a' - 'A') else c
  }

  function Upper(s: string): string {
    seq(|s|, i requires 0 <= i < |s| => UpperChar(s[i]))
  }

  function Find(s: string, c: char): (r: Option<nat>)
    ensures r.Some? ==> r.value < |s| && s[r.value] == c && c !in s[..r.value]
    ensures r.None? ==> c !in s
  {
    if s == "" then None
    else if s[0] == c then Some(0)
    else
      var r := Find(s[1..], c);
      if r.None? then None else Some(r.value + 1)
  }

  function FindLast(s: string, c: char): (r: Option<nat>)
    ensures r.Some? ==> r.value < |s| && s[r.value] == c && c !in s[r.value + 1..]
    ensures r.None? ==> c !in s
  {
    if s == "" then None
    else if s[|s| - 1] == c then Some(|s| - 1)
    else FindLast(s[..|s| - 1], c)
  }

  /** The text inside the outermost angle brackets, else what follows the first colon. */
  function ExtractAngle(s: string): string {
    var a, b := Find(s, '<'), FindLast(s, '>');
    if a.Some? && b.Some? && b.value > a.value then s[a.value + 1..b.value]
    else
      var colon := Find(s, ':');
      if colon.Some? then Trim(s[colon.value + 1..]) else ""
  }

  datatype Command =
    | Hello | MailFrom(addr: string) | RcptTo(addr: string) | Data | Reset | Noop | Quit | Verify | Unknown

  /** The command a trimmed line gives, by its first letters in any case. */
  function Parse(t: string): Command {
    var u := Upper(t);
    if "EHLO" <= u || "HELO" <= u then Hello
    else if "MAIL FROM" <= u then MailFrom(ExtractAngle(t))
    else if "RCPT TO" <= u then RcptTo(ExtractAngle(t))
    else if "DATA" <= u then Data
    else if "RSET" <= u then Reset
    else if "NOOP" <= u then Noop
    else if "QUIT" <= u then Quit
    else if "VRFY" <= u || "EXPN" <= u then Verify
    else Unknown
  }

  /** A raw line as text: cut at the cap, decoded, trailing whitespace dropped. */
  function LineText(line: Bytes): string {
    TrimEnd(Decode(if |line| > MAX_LINE then line[..MAX_LINE] else line))
  }

  // ---- The session ----

  datatype State = State(from: string, rcpts: seq<string>)

  const START := State("", [])

  datatype Delivery = Delivery(from: string, rcpts: seq<string>, message: Bytes)

  /** What the server saw, in order. `Refused` is DATA without recipients; `Message` a completed DATA. */
  datatype Event =
    | Sender(addr: string) | Recipient(addr: string) | Cleared | Refused | Message(read: Option<Bytes>) | Idle | Ended

  /** What one command does: the event, the message handed on, the replies, the state and stream left. */
  datatype Turn = Turn(event: Event, delivery: seq<Delivery>, replies: seq<nat>, state: State, rest: Bytes)

  function Obey(c: Command, st: State, rest: Bytes): (t: Turn)
    ensures |t.rest| <= |rest|
  {
    match c
    case Hello => Turn(Idle, [], [250], st, rest)
    case MailFrom(addr) => Turn(Sender(addr), [], [250], State(addr, []), rest)
    case RcptTo(addr) => Turn(Recipient(addr), [], [250], State(st.from, st.rcpts + [addr]), rest)
    case Data => if st.rcpts == [] then Turn(Refused, [], [503], st, rest) else ObeyData(st, rest)
    case Reset => Turn(Cleared, [], [250], State(st.from, []), rest)
    case Noop => Turn(Idle, [], [250], st, rest)
    case Quit => Turn(Ended, [], [221], st, rest)
    case Verify => Turn(Idle, [], [252], st, rest)
    case Unknown => Turn(Idle, [], [500], st, rest)
  }

  function ObeyData(st: State, s: Bytes): (t: Turn)
    ensures |t.rest| <= |s|
  {
    var read := ReadData(s);
    var cleared := State(st.from, []);
    if read.message.Some?
    then Turn(Message(read.message), [Delivery(st.from, st.rcpts, read.message.value)], [354, 250], cleared, read.rest)
    else Turn(Message(None), [], [354, 552], cleared, read.rest)
  }

  /** The turn taken on the next line of the stream. */
  function NextTurn(s: Bytes, st: State): (t: Turn)
    requires s != []
    ensures |t.rest| < |s|
  {
    var n := LineLength(s);
    Obey(Parse(LineText(s[..n])), st, s[n..])
  }

  datatype Output = Output(trace: seq<Event>, deliveries: seq<Delivery>, replies: seq<nat>, rest: Bytes)

  /** The rest of the session, from the bytes still to be read. */
  function Session(s: Bytes, st: State): Output
    decreases |s|
  {
    if s == [] then Output([], [], [], [])
    else
      var t := NextTurn(s, st);
      if t.event.Ended? then Output([t.event], t.delivery, t.replies, t.rest)
      else
        var out := Session(t.rest, t.state);
        Output([t.event] + out.trace, t.delivery + out.deliveries, t.replies + out.replies, out.rest)
  }
}
