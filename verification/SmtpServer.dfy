/** The connection handler as it runs: a buffered reader, and loops that update the line, the
    sender, the recipients and the message. Each is proved against Smtp's description of the stream. */
module SmtpServer {
  import opened Options
  import opened Sequences
  import opened Text
  import opened Utf8
  import opened Smtp

  class Reader {
    const stream: Bytes
    var pos: nat

    ghost predicate Valid()
      reads this
    {
      pos <= |stream|
    }

    /** What has not been read yet. */
    ghost function Rest(): Bytes
      requires Valid()
      reads this
    {
      stream[pos..]
    }

    constructor (s: Bytes)
      ensures Valid() && Rest() == s
    {
      stream, pos := s, 0;
    }

    /** `read_until(LF)`: empty exactly at the end of the stream. */
    method ReadUntilLf() returns (line: Bytes)
      requires Valid()
      modifies this
      ensures Valid()
      ensures var n := LineLength(old(Rest())); line == old(Rest())[..n] && Rest() == old(Rest())[n..]
    {
      var start := pos;
      ghost var s := Rest();
      while pos < |stream| && stream[pos] != LF
        invariant start <= pos <= |stream|
        invariant LineLength(s) == pos - start + LineLength(stream[pos..])
        decreases |stream| - pos
      {
        assert stream[pos..][1..] == stream[pos + 1..];
        pos := pos + 1;
      }
      if pos < |stream| {
        assert LineLength(stream[pos..]) == 1;
        pos := pos + 1;
      }
      line := stream[start..pos];
    }
  }

  lemma {:induction false} UnstuffedSnoc(lines: seq<Bytes>, line: Bytes)
    ensures Unstuffed(lines + [line]) == Unstuffed(lines) + Unstuff(line)
  {
    if lines == [] {
      assert Unstuffed([line][1..]) == [];
    } else {
      UnstuffedSnoc(lines[1..], line);
      assert (lines + [line])[1..] == lines[1..] + [line];
    }
  }

  /** `read` lines are behind the reader and `rest` is ahead of it, in the payload of `s`. */
  ghost predicate Between(s: Bytes, read: seq<Bytes>, rest: Bytes) {
    Payload(s) == (read + Payload(rest).0, Payload(rest).1)
  }

  lemma {:induction false} BetweenStep(s: Bytes, read: seq<Bytes>, rest: Bytes)
    requires Between(s, read, rest)
    ensures var n := LineLength(rest);
            if n == 0 || EndsData(rest[..n]) then Payload(s) == (read, rest[n..])
            else Between(s, read + [rest[..n]], rest[n..])
  {
    var n := LineLength(rest);
    if n == 0 || EndsData(rest[..n]) {
      assert read + [] == read;
    } else {
      Glue(read, [rest[..n]], Payload(rest[n..]).0);
    }
  }

  /** Adds a line's content unless the message has outgrown the cap. */
  method Append(data: Bytes, overflow: bool, line: Bytes, ghost read: seq<Bytes>)
    returns (data': Bytes, overflow': bool)
    requires overflow == (|Unstuffed(read)| > MAX_MESSAGE) && (!overflow ==> data == Unstuffed(read))
    ensures overflow' == (|Unstuffed(read + [line])| > MAX_MESSAGE)
    ensures !overflow' ==> data' == Unstuffed(read + [line])
  {
    UnstuffedSnoc(read, line);
    data', overflow' := data, overflow;
    var content := line;
    if [DOT, DOT] <= line {
      content := line[1..];
    }
    if !overflow {
      if |data| + |content| > MAX_MESSAGE {
        overflow' := true;
      } else {
        data' := data + content;
      }
    }
  }

  /** Reads through the terminator, keeping the message while it fits. */
  method ReadMessage(reader: Reader) returns (message: Option<Bytes>)
    requires reader.Valid()
    modifies reader
    ensures reader.Valid()
    ensures Read(message, reader.Rest()) == ReadData(old(reader.Rest()))
  {
    var data: Bytes, overflow, done := [], false, false;
    ghost var s, read: seq<Bytes>, rest := reader.Rest(), [], reader.Rest();
    assert [] + Payload(s).0 == Payload(s).0;
    while !done
      invariant reader.Valid() && rest == reader.Rest()
      invariant done ==> Payload(s) == (read, rest)
      invariant !done ==> Between(s, read, rest)
      invariant overflow == (|Unstuffed(read)| > MAX_MESSAGE) && (!overflow ==> data == Unstuffed(read))
      decreases if done then 0 else 1, |rest|
    {
      BetweenStep(s, read, rest);
      var line := reader.ReadUntilLf();
      rest := reader.Rest();
      if line == [] || EndsData(line) {
        done := true;
      } else {
        data, overflow := Append(data, overflow, line, read);
        read := read + [line];
      }
    }
    message := if overflow then None else Some(data);
  }

  /** The branch for one command. */
  method Branch(reader: Reader, c: Command, mailFrom: string, rcpts: seq<string>)
    returns (over: bool, mailFrom': string, rcpts': seq<string>, delivery: seq<Delivery>, replies: seq<nat>)
    requires reader.Valid()
    modifies reader
    ensures reader.Valid()
    ensures var t := Obey(c, State(mailFrom, rcpts), old(reader.Rest()));
            && over == t.event.Ended? && State(mailFrom', rcpts') == t.state && delivery == t.delivery
            && replies == t.replies && reader.Rest() == t.rest
  {
    over, mailFrom', rcpts', delivery := false, mailFrom, rcpts, [];
    match c {
      case Hello => replies := [250];
      case MailFrom(addr) =>
        rcpts' := [];
        mailFrom' := addr;
        replies := [250];
      case RcptTo(addr) =>
        rcpts' := rcpts + [addr];
        replies := [250];
      case Data =>
        if rcpts == [] {
          replies := [503];
        } else {
          replies := [354];
          var message := ReadMessage(reader);
          if message.Some? {
            delivery := [Delivery(mailFrom, rcpts, message.value)];
            replies := replies + [250];
          } else {
            replies := replies + [552];
          }
          rcpts' := [];
        }
      case Reset =>
        rcpts' := [];
        replies := [250];
      case Noop => replies := [250];
      case Quit =>
        replies := [221];
        over := true;
      case Verify => replies := [252];
      case Unknown => replies := [500];
    }
  }

  /** Reads one line and acts on it. */
  method TakeTurn(reader: Reader, mailFrom: string, rcpts: seq<string>)
    returns (over: bool, mailFrom': string, rcpts': seq<string>, delivery: seq<Delivery>, replies: seq<nat>)
    requires reader.Valid() && reader.Rest() != []
    modifies reader
    ensures reader.Valid()
    ensures var t := NextTurn(old(reader.Rest()), State(mailFrom, rcpts));
            && over == t.event.Ended? && State(mailFrom', rcpts') == t.state && delivery == t.delivery
            && replies == t.replies && reader.Rest() == t.rest
  {
    var line := reader.ReadUntilLf();
    over, mailFrom', rcpts', delivery, replies := Branch(reader, Parse(LineText(line)), mailFrom, rcpts);
  }

  /** The session is `ds` and `rs` followed by the session of the state and stream still to come. */
  ghost predicate Midway(whole: Output, ds: seq<Delivery>, rs: seq<nat>, st: State, rest: Bytes) {
    var out := Session(rest, st);
    whole.deliveries == ds + out.deliveries && whole.replies == rs + out.replies && whole.rest == out.rest
  }

  lemma {:induction false} MidwayStep(whole: Output, ds: seq<Delivery>, rs: seq<nat>, st: State, rest: Bytes)
    requires Midway(whole, ds, rs, st, rest) && rest != []
    ensures var t := NextTurn(rest, st);
            if t.event.Ended?
            then whole.deliveries == ds + t.delivery && whole.replies == rs + t.replies && whole.rest == t.rest
            else Midway(whole, ds + t.delivery, rs + t.replies, t.state, t.rest)
  {
    var t := NextTurn(rest, st);
    if !t.event.Ended? {
      Glue(ds, t.delivery, Session(t.rest, t.state).deliveries);
      Glue(rs, t.replies, Session(t.rest, t.state).replies);
    }
  }

  /** One connection, from the greeting until QUIT or the end of the stream. */
  method HandleSession(reader: Reader) returns (deliveries: seq<Delivery>, replies: seq<nat>)
    requires reader.Valid()
    modifies reader
    ensures reader.Valid()
    ensures var out := Session(old(reader.Rest()), START);
            deliveries == out.deliveries && replies == [220] + out.replies && reader.Rest() == out.rest
  {
    deliveries := [];
    var answers: seq<nat> := [];
    var mailFrom: string, rcpts: seq<string>, over := "", [], false;
    ghost var rest := reader.Rest();
    ghost var whole := Session(rest, START);
    while !over && reader.pos < |reader.stream|
      invariant reader.Valid() && rest == reader.Rest()
      invariant over ==> deliveries == whole.deliveries && answers == whole.replies && rest == whole.rest
      invariant !over ==> Midway(whole, deliveries, answers, State(mailFrom, rcpts), rest)
      decreases if over then 0 else 1, |rest|
    {
      MidwayStep(whole, deliveries, answers, State(mailFrom, rcpts), rest);
      var delivery, answer;
      over, mailFrom, rcpts, delivery, answer := TakeTurn(reader, mailFrom, rcpts);
      deliveries, answers := deliveries + delivery, answers + answer;
      rest := reader.Rest();
    }
    replies := [220] + answers;
  }
}
