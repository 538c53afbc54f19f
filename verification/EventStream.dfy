/** EventStream bodies: length-prefixed, checksummed, big-endian frames, and the chunking of a text
    into them. The checksum and the JSON payloads are parameters. */
module EventStream {
  import opened Options
  import opened Sequences
  import opened Text
  import opened Utf8

  const U8 := 0x100
  const U16 := 0x1_0000
  const U32 := 0x1_0000_0000

  type Word = n: nat | n < U32

  // ---- Encoding ----

  /** Big-endian bytes of a length cut to 16 or 32 bits. */
  function Be16(n: nat): Bytes { [n / 0x100 % U8, n % U8] }

  function Be32(n: nat): Bytes {
    [n / 0x100_0000 % U8, n / 0x1_0000 % U8, n / 0x100 % U8, n % U8]
  }

  datatype Header = Header(name: Bytes, value: Bytes)

  datatype Frame = Frame(headers: seq<Header>, payload: Bytes)

  const STRING_TYPE: Byte := 7

  function EncodeHeader(h: Header): Bytes {
    [|h.name| % U8] + h.name + [STRING_TYPE] + Be16(|h.value|) + h.value
  }

  function EncodeHeaders(hs: seq<Header>): Bytes {
    if hs == [] then [] else EncodeHeader(hs[0]) + EncodeHeaders(hs[1..])
  }

  function FrameLength(f: Frame): nat { 16 + |EncodeHeaders(f.headers)| + |f.payload| }

  /** Everything of a frame but its last checksum. */
  function Unsigned(crc: Bytes -> Word, f: Frame): Bytes {
    var hs := EncodeHeaders(f.headers);
    var prelude := Be32(FrameLength(f)) + Be32(|hs|);
    prelude + Be32(crc(prelude)) + hs + f.payload
  }

  function EncodeFrame(crc: Bytes -> Word, f: Frame): Bytes {
    Unsigned(crc, f) + Be32(crc(Unsigned(crc, f)))
  }

  function EncodeFrames(crc: Bytes -> Word, fs: seq<Frame>): Bytes {
    if fs == [] then [] else EncodeFrame(crc, fs[0]) + EncodeFrames(crc, fs[1..])
  }

  // ---- Chunks ----

  datatype Mode = ByWord | ByChar | BySize | Whole

  datatype Config = Config(mode: Mode, fixedSize: nat, failAfter: Option<nat>)

  function WithSpaces(ws: seq<string>): seq<string> {
    if ws == [] then [] else [ws[0] + " "] + WithSpaces(ws[1..])
  }

  function Characters(s: string): seq<string> {
    seq(|s|, i requires 0 <= i < |s| => [s[i]])
  }

  /** Blocks of bytes, each decoded on its own. */
  function Blocks(bs: Bytes, size: nat): seq<string>
    requires size > 0
    decreases |bs|
  {
    if bs == [] then []
    else if |bs| <= size then [Decode(bs)]
    else [Decode(bs[..size])] + Blocks(bs[size..], size)
  }

  function SplitChunks(text: string, cfg: Config): seq<string> {
    match cfg.mode
    case ByWord => WithSpaces(Words(text))
    case ByChar => Characters(text)
    case BySize => Blocks(Encode(text), if cfg.fixedSize > 1 then cfg.fixedSize else 1)
    case Whole => [text]
  }

  // ---- The body ----

  /** The checksum, the JSON payloads of the three kinds of event, and the headers of normal and error events. */
  datatype Codec = Codec(
    crc: Bytes -> Word,
    chunk: string -> Bytes,
    stop: Bytes,
    error: Bytes,
    eventHeaders: seq<Header>,
    errorHeaders: seq<Header>)

  datatype Label = Label(name: string, value: string)

  function Labelled(labels: seq<Label>): seq<Header> {
    seq(|labels|, i requires 0 <= i < |labels| => Header(Encode(labels[i].name), Encode(labels[i].value)))
  }

  const EVENT_LABELS := [Label(":event-type", "chunk"), Label(":content-type", "application/json"),
                         Label(":message-type", "event")]

  const ERROR_LABELS := [Label(":event-type", "modelStreamErrorException"), Label(":content-type", "application/json"),
                         Label(":message-type", "exception"), Label(":exception-type", "ModelStreamErrorException")]

  /** The headers the service sends. */
  predicate IsService(c: Codec) {
    c.eventHeaders == Labelled(EVENT_LABELS) && c.errorHeaders == Labelled(ERROR_LABELS)
  }

  function ChunkFrame(c: Codec, text: string): Frame { Frame(c.eventHeaders, c.chunk(text)) }

  function StopFrame(c: Codec): Frame { Frame(c.eventHeaders, c.stop) }

  function ErrorFrame(c: Codec): Frame { Frame(c.errorHeaders, c.error) }

  /** How many chunks are sent. */
  function Sent(chunks: seq<string>, failAfter: Option<nat>): (n: nat)
    ensures n <= |chunks|
  {
    if failAfter.Some? && failAfter.value < |chunks| then failAfter.value else |chunks|
  }

  /** The frames of a body: the chunks sent, then an error if any chunk was held back and a stop otherwise. */
  function Frames(c: Codec, chunks: seq<string>, failAfter: Option<nat>): seq<Frame> {
    var n := Sent(chunks, failAfter);
    ChunkFrames(c, chunks[..n]) + [if n < |chunks| then ErrorFrame(c) else StopFrame(c)]
  }

  function ChunkFrames(c: Codec, chunks: seq<string>): seq<Frame> {
    seq(|chunks|, i requires 0 <= i < |chunks| => ChunkFrame(c, chunks[i]))
  }

  lemma {:induction false} Nothing(xs: Bytes)
    ensures xs + [] == xs && [] + xs == xs
  {
  }

  lemma {:induction false} EncodeFramesSnoc(crc: Bytes -> Word, fs: seq<Frame>, f: Frame)
    ensures EncodeFrames(crc, fs + [f]) == EncodeFrames(crc, fs) + EncodeFrame(crc, f)
  {
    if fs == [] {
      assert EncodeFrames(crc, [f][1..]) == [];
      assert fs + [f] == [f];
      Nothing(EncodeFrame(crc, f));
    } else {
      Glue(EncodeFrame(crc, fs[0]), EncodeFrames(crc, fs[1..]), EncodeFrame(crc, f));
      EncodeFramesSnoc(crc, fs[1..], f);
      assert (fs + [f])[1..] == fs[1..] + [f];
    }
  }

  /** Appends one frame. */
  method Append(c: Codec, body: Bytes, f: Frame, ghost sent: seq<Frame>) returns (body': Bytes)
    requires Holds(c, body, sent)
    ensures Holds(c, body', sent + [f])
  {
    EncodeFramesSnoc(c.crc, sent, f);
    body' := body + EncodeFrame(c.crc, f);
  }

  lemma {:induction false} OneMoreChunk(c: Codec, chunks: seq<string>, i: nat)
    requires i < |chunks|
    ensures ChunkFrames(c, chunks[..i + 1]) == ChunkFrames(c, chunks[..i]) + [ChunkFrame(c, chunks[i])]
  {
  }

  /** The body holds exactly these frames. */
  ghost predicate Holds(c: Codec, body: Bytes, sent: seq<Frame>) {
    body == EncodeFrames(c.crc, sent)
  }

  /** `build_streaming_body`: appends frame after frame, and stops early when told to fail. */
  method BuildStreamingBody(c: Codec, content: string, cfg: Config) returns (body: Bytes)
    ensures Holds(c, body, Frames(c, SplitChunks(content, cfg), cfg.failAfter))
  {
    hide SplitChunks;
    hide ChunkFrame;
    var chunks := SplitChunks(content, cfg);
    body := [];
    var i := 0;
    while i < |chunks|
      invariant 0 <= i <= Sent(chunks, cfg.failAfter)
      invariant Holds(c, body, ChunkFrames(c, chunks[..i]))
    {
      if cfg.failAfter.Some? && i >= cfg.failAfter.value {
        body := Append(c, body, ErrorFrame(c), ChunkFrames(c, chunks[..i]));
        return;
      }
      OneMoreChunk(c, chunks, i);
      body := Append(c, body, ChunkFrame(c, chunks[i]), ChunkFrames(c, chunks[..i]));
      i := i + 1;
    }
    body := Append(c, body, StopFrame(c), ChunkFrames(c, chunks[..i]));
  }
}
