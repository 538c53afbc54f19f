/** What a streamed body promises a reader that knows only the documented layout, and what the
    chunks say about the text. */
module EventStreamTheorems {
  import opened Options
  import opened Sequences
  import opened Text
  import opened Utf8
  import opened EventStream

  // ---- A reader written from the layout ----

  function Read16(s: Bytes): nat
    requires |s| >= 2
  {
    s[0] as nat * 0x100 + s[1] as nat
  }

  function Read32(s: Bytes): nat
    requires |s| >= 4
  {
    s[0] as nat * 0x100_0000 + s[1] as nat * 0x1_0000 + s[2] as nat * 0x100 + s[3] as nat
  }

  /** One header and the number of bytes it takes. */
  function DecodeHeader(s: Bytes): (r: Option<(Header, nat)>)
    ensures r.Some? ==> 0 < r.value.1 <= |s|
  {
    if s == [] then None
    else
      var n := s[0];
      if |s| < n + 4 || s[n + 1] != STRING_TYPE then None
      else
        var v := Read16(s[n + 2..]);
        if |s| < n + 4 + v then None
        else Some((Header(s[1..n + 1], s[n + 4..n + 4 + v]), n + 4 + v))
  }

  function DecodeHeaders(s: Bytes): Option<seq<Header>>
    decreases |s|
  {
    if s == [] then Some([])
    else
      var h := DecodeHeader(s);
      if h.None? then None
      else
        var hs := DecodeHeaders(s[h.value.1..]);
        if hs.None? then None else Some([h.value.0] + hs.value)
  }

  /** One frame and the bytes behind it, if both lengths and both checksums agree. */
  function DecodeFrame(crc: Bytes -> Word, s: Bytes): (r: Option<(Frame, Bytes)>)
    ensures r.Some? ==> |r.value.1| < |s|
  {
    if |s| < 16 then None
    else
      var total, hlen := Read32(s), Read32(s[4..]);
      if Read32(s[8..]) != crc(s[..8]) || total < 16 + hlen || total > |s| then None
      else if Read32(s[total - 4..]) != crc(s[..total - 4]) then None
      else
        var hs := DecodeHeaders(s[12..12 + hlen]);
        if hs.None? then None else Some((Frame(hs.value, s[12 + hlen..total - 4]), s[total..]))
  }

  function DecodeAll(crc: Bytes -> Word, s: Bytes): Option<seq<Frame>>
    decreases |s|
  {
    if s == [] then Some([])
    else
      var r := DecodeFrame(crc, s);
      if r.None? then None
      else
        var fs := DecodeAll(crc, r.value.1);
        if fs.None? then None else Some([r.value.0] + fs.value)
  }

  // ---- Headers ----

  predicate HeaderFits(h: Header) { |h.name| < U8 && |h.value| < U16 }

  predicate HeadersFit(hs: seq<Header>) { forall i :: 0 <= i < |hs| ==> HeaderFits(hs[i]) }

  lemma {:induction false} Low16(n: nat)
    ensures n % 0x1_0000 == n / 0x100 % 0x100 * 0x100 + n % 0x100
    ensures n / 0x1_0000 == n / 0x100 / 0x100
  {
    var q := n / 0x100;
    assert n == q * 0x100 + n % 0x100 && q == q / 0x100 * 0x100 + q % 0x100;
  }

  lemma {:induction false} ReadBack(n: nat)
    ensures Read16(Be16(n)) == n % U16 && Read32(Be32(n)) == n % U32
  {
    Low16(n);
    Low16(n / 0x1_0000);
    var q := n / 0x1_0000;
    assert n / 0x100_0000 == q / 0x100;
    assert n == q * 0x1_0000 + n % 0x1_0000 && q == q / 0x1_0000 * 0x1_0000 + q % 0x1_0000;
    assert n % U32 == q % 0x1_0000 * 0x1_0000 + n % 0x1_0000;
  }

  lemma {:induction false} HeaderBack(h: Header, tail: Bytes)
    requires HeaderFits(h)
    ensures DecodeHeader(EncodeHeader(h) + tail) == Some((h, |EncodeHeader(h)|))
  {
    hide Read16;
    hide Be16;
    var s, n := EncodeHeader(h) + tail, |h.name|;
    HeaderParts(h, tail);
    assert s[0] == n && s[1..n + 1] == h.name && s[n + 1] == STRING_TYPE;
    assert s[n + 4..n + 4 + |h.value|] == h.value;
  }

  /** Where a header's value length is found, when the name length was not cut. */
  lemma {:induction false} HeaderParts(h: Header, tail: Bytes)
    ensures |EncodeHeader(h)| == |h.name| + 4 + |h.value|
    ensures Read16((EncodeHeader(h) + tail)[|h.name| + 2..]) == |h.value| % U16
  {
    var s, n := EncodeHeader(h) + tail, |h.name|;
    ReadBack(|h.value|);
    assert s[n + 2..][..2] == Be16(|h.value|);
    assert s[n + 2..][0] == s[n + 2..][..2][0] && s[n + 2..][1] == s[n + 2..][..2][1];
  }

  /** A header whose lengths were cut is not read back. */
  lemma {:induction false} HeaderLost(h: Header, tail: Bytes)
    requires !HeaderFits(h)
    ensures var r := DecodeHeader(EncodeHeader(h) + tail); r.Some? ==> r.value.0 != h
  {
    var s, n := EncodeHeader(h) + tail, |h.name|;
    if n < U8 {
      HeaderParts(h, tail);
      assert s[0] == n;
    }
  }

  lemma {:induction false} HeadersBack(hs: seq<Header>)
    ensures DecodeHeaders(EncodeHeaders(hs)) == Some(hs) <==> HeadersFit(hs)
  {
    hide DecodeHeader;
    hide EncodeHeader;
    hide HeaderFits;
    if hs != [] {
      var e, tail := EncodeHeader(hs[0]), EncodeHeaders(hs[1..]);
      HeadersBack(hs[1..]);
      if HeaderFits(hs[0]) {
        HeaderBack(hs[0], tail);
        assert (e + tail)[|e|..] == tail;
        assert hs == [hs[0]] + hs[1..];
        assert HeadersFit(hs) <==> HeadersFit(hs[1..]) by { assert forall i :: 1 <= i < |hs| ==> hs[i] == hs[1..][i - 1]; }
      } else {
        HeaderLost(hs[0], tail);
      }
    }
  }

  // ---- Frames ----

  predicate FrameFits(f: Frame) { HeadersFit(f.headers) && FrameLength(f) < U32 }

  lemma {:induction false} ReadsPrefix(s: Bytes, n: nat)
    requires |s| >= 4 && s[..4] == Be32(n)
    ensures Read32(s) == n % U32
  {
    ReadBack(n);
    assert s[0] == s[..4][0] && s[1] == s[..4][1] && s[2] == s[..4][2] && s[3] == s[..4][3];
  }

  /** The lengths, checksums and parts a reader finds in a stream that starts with a frame. */
  ghost predicate Shaped(crc: Bytes -> Word, s: Bytes, hs: Bytes, payload: Bytes, rest: Bytes) {
    var total := 16 + |hs| + |payload|;
    && |s| >= total
    && Read32(s) == total && Read32(s[4..]) == |hs|
    && Read32(s[8..]) == crc(s[..8]) && Read32(s[total - 4..]) == crc(s[..total - 4])
    && s[12..12 + |hs|] == hs && s[12 + |hs|..total - 4] == payload && s[total..] == rest
  }

  lemma {:induction false} ReadsAt(before: Bytes, word: Bytes, after: Bytes)
    requires |word| == 4
    ensures var s := before + word + after; Read32(s[|before|..]) == Read32(word)
  {
    var s := before + word + after;
    assert s[|before|..] == word + after;
  }

  lemma {:induction false} PartsShaped(crc: Bytes -> Word, a: Bytes, b: Bytes, sum: Bytes, hs: Bytes,
                                       payload: Bytes, last: Bytes, rest: Bytes)
    requires |a| == |b| == |sum| == |last| == 4
    requires Read32(a) == 16 + |hs| + |payload| && Read32(b) == |hs|
    requires Read32(sum) == crc(a + b) && Read32(last) == crc(a + b + sum + hs + payload)
    ensures Shaped(crc, a + b + sum + hs + payload + last + rest, hs, payload, rest)
  {
    hide Read32;
    var s, total := a + b + sum + hs + payload + last + rest, 16 + |hs| + |payload|;
    assert s == [] + a + (b + sum + hs + payload + last + rest);
    ReadsAt([], a, b + sum + hs + payload + last + rest);
    assert s == a + b + (sum + hs + payload + last + rest);
    ReadsAt(a, b, sum + hs + payload + last + rest);
    assert s == a + b + sum + (hs + payload + last + rest);
    ReadsAt(a + b, sum, hs + payload + last + rest);
    ReadsAt(a + b + sum + hs + payload, last, rest);
    assert s[..8] == a + b && s[..total - 4] == a + b + sum + hs + payload;
    assert s[12..12 + |hs|] == hs && s[12 + |hs|..total - 4] == payload && s[total..] == rest;
  }

  lemma {:induction false} WordBack(n: nat) returns (w: Bytes)
    requires n < U32
    ensures w == Be32(n) && |w| == 4 && Read32(w) == n
  {
    w := Be32(n);
    ReadBack(n);
  }

  lemma {:induction false} FrameShaped(crc: Bytes -> Word, f: Frame, rest: Bytes)
    requires FrameLength(f) < U32
    ensures Shaped(crc, EncodeFrame(crc, f) + rest, EncodeHeaders(f.headers), f.payload, rest)
  {
    var hs := EncodeHeaders(f.headers);
    var a := WordBack(FrameLength(f));
    var b := WordBack(|hs|);
    var sum := WordBack(crc(a + b));
    var signed := a + b + sum + hs + f.payload;
    var last := WordBack(crc(signed));
    assert Unsigned(crc, f) == signed;
    PartsShaped(crc, a, b, sum, hs, f.payload, last, rest);
  }

  /** What a reader finds at the start of an encoded frame that was not cut. */
  lemma {:induction false} FrameFound(crc: Bytes -> Word, f: Frame, rest: Bytes)
    requires FrameLength(f) < U32
    ensures var hs := DecodeHeaders(EncodeHeaders(f.headers));
            DecodeFrame(crc, EncodeFrame(crc, f) + rest)
            == if hs.None? then None else Some((Frame(hs.value, f.payload), rest))
  {
    FrameShaped(crc, f, rest);
    ShapedDecodes(crc, EncodeFrame(crc, f) + rest, EncodeHeaders(f.headers), f.payload, rest);
  }

  lemma {:induction false} ShapedDecodes(crc: Bytes -> Word, s: Bytes, hs: Bytes, payload: Bytes, rest: Bytes)
    requires Shaped(crc, s, hs, payload, rest)
    ensures var h := DecodeHeaders(hs);
            DecodeFrame(crc, s) == if h.None? then None else Some((Frame(h.value, payload), rest))
  {
    hide Read32;
    hide DecodeHeaders;
  }

  /** A frame too long for its length field is not read to its end. */
  lemma {:induction false} FrameCut(crc: Bytes -> Word, f: Frame, rest: Bytes)
    requires FrameLength(f) >= U32
    ensures var r := DecodeFrame(crc, EncodeFrame(crc, f) + rest); r.Some? ==> r.value.1 != rest
  {
    var s := EncodeFrame(crc, f) + rest;
    assert s[..4] == Be32(FrameLength(f));
    ReadsPrefix(s, FrameLength(f));
    assert |s| == FrameLength(f) + |rest|;
  }

  /** FRAME. An encoded frame is read back, with the stream left just behind it, exactly when its header names,
      header values and total length fit their length fields. */
  lemma {:induction false} FrameRoundTrip(crc: Bytes -> Word, f: Frame, rest: Bytes)
    ensures DecodeFrame(crc, EncodeFrame(crc, f) + rest) == Some((f, rest)) <==> FrameFits(f)
  {
    if FrameLength(f) < U32 {
      FrameFound(crc, f, rest);
      HeadersBack(f.headers);
    } else {
      FrameCut(crc, f, rest);
    }
  }

  lemma {:induction false} FramesRoundTrip(crc: Bytes -> Word, fs: seq<Frame>)
    requires forall i :: 0 <= i < |fs| ==> FrameFits(fs[i])
    ensures DecodeAll(crc, EncodeFrames(crc, fs)) == Some(fs)
    decreases |fs|
  {
    if fs != [] {
      FramesRoundTrip(crc, fs[1..]);
      FrameRoundTrip(crc, fs[0], EncodeFrames(crc, fs[1..]));
      assert fs == [fs[0]] + fs[1..];
    }
  }

  /** Every frame of the body fits its length fields. */
  ghost predicate CodecFits(c: Codec, chunks: seq<string>) {
    && (forall i :: 0 <= i < |chunks| ==> FrameFits(ChunkFrame(c, chunks[i])))
    && FrameFits(StopFrame(c)) && FrameFits(ErrorFrame(c))
  }

  /** BODY. Decoded by the layout, a body is exactly the first chunks, as many as there are or as may be sent before
      failing, and then one error frame if any chunk was held back, one stop frame otherwise. */
  lemma {:induction false} BodyDecodes(c: Codec, content: string, cfg: Config, body: Bytes)
    requires Holds(c, body, Frames(c, SplitChunks(content, cfg), cfg.failAfter))
    requires CodecFits(c, SplitChunks(content, cfg))
    ensures var chunks := SplitChunks(content, cfg);
            var n := if cfg.failAfter.Some? && cfg.failAfter.value < |chunks| then cfg.failAfter.value else |chunks|;
            var fs := DecodeAll(c.crc, body);
            && fs.Some? && |fs.value| == n + 1
            && (forall i :: 0 <= i < n ==> fs.value[i] == ChunkFrame(c, chunks[i]))
            && fs.value[n] == (if n < |chunks| then ErrorFrame(c) else StopFrame(c))
  {
    hide SplitChunks;
    hide DecodeAll;
    hide FrameFits;
    var chunks := SplitChunks(content, cfg);
    FramesRoundTrip(c.crc, Frames(c, chunks, cfg.failAfter));
  }

  // ---- What the chunks are ----

  lemma {:induction false} SpacedAt(ws: seq<string>)
    ensures |WithSpaces(ws)| == |ws|
    ensures forall i :: 0 <= i < |ws| ==> WithSpaces(ws)[i] == ws[i] + " "
  {
    if ws != [] {
      SpacedAt(ws[1..]);
    }
  }

  /** The bytes behind the first `n`, or none. */
  function From(bs: Bytes, n: nat): Bytes { if n <= |bs| then bs[n..] else [] }

  function Leading(bs: Bytes, n: nat): Bytes { if n <= |bs| then bs[..n] else bs }

  lemma {:induction false} BlocksAt(bs: Bytes, size: nat, i: nat)
    requires size > 0
    ensures i < |Blocks(bs, size)| <==> i * size < |bs|
    ensures i < |Blocks(bs, size)| ==> Blocks(bs, size)[i] == Decode(Leading(From(bs, i * size), size))
  {
    hide Decode;
    hide From;
    hide Leading;
    if i == 0 {
      if bs != [] {
        FirstBlock(bs, size);
      }
    } else {
      var n := (i - 1) * size;
      assert n + size == i * size && n >= 0;
      if |bs| > size {
        BlocksAt(bs[size..], size, i - 1);
        FurtherOn(bs, size, n);
      }
    }
  }

  lemma {:induction false} FirstBlock(bs: Bytes, size: nat)
    requires size > 0 && bs != []
    ensures Blocks(bs, size) != [] && Blocks(bs, size)[0] == Decode(Leading(From(bs, 0), size))
  {
    assert From(bs, 0) == bs;
    if |bs| <= size {
      assert Leading(bs, size) == bs;
    }
  }

  lemma {:induction false} FurtherOn(bs: Bytes, m: nat, n: nat)
    requires m <= |bs|
    ensures From(bs[m..], n) == From(bs, n + m)
  {
  }

  /** CHUNKS, EXACTLY. Word mode sends each word and a space, character mode each character, and whole mode the text;
      fixed mode sends a chunk for every multiple of the size below the length in bytes, at least one byte a chunk,
      and its text is what the bytes from there, as many as the size, decode to. */
  ghost predicate ChunkIs(text: string, cfg: Config, i: nat, c: Option<string>) {
    match cfg.mode
    case ByWord => c == if i < |Words(text)| then Some(Words(text)[i] + " ") else None
    case ByChar => c == if i < |text| then Some([text[i]]) else None
    case Whole => c == if i == 0 then Some(text) else None
    case BySize =>
      var size, bytes := if cfg.fixedSize == 0 then 1 else cfg.fixedSize, Encode(text);
      c == if i * size < |bytes| then Some(Decode(Leading(From(bytes, i * size), size))) else None
  }

  lemma {:induction false} ChunksExactly(text: string, cfg: Config, i: nat)
    ensures var chunks := SplitChunks(text, cfg);
            ChunkIs(text, cfg, i, if i < |chunks| then Some(chunks[i]) else None)
  {
    SpacedAt(Words(text));
    if cfg.mode.BySize? {
      BlocksAt(Encode(text), if cfg.fixedSize == 0 then 1 else cfg.fixedSize, i);
    }
  }

  // ---- Chunks and the text ----

  function Concat(chunks: seq<string>): string {
    if chunks == [] then "" else chunks[0] + Concat(chunks[1..])
  }

  /** CHARACTERS. The chunks of the character mode join to the text. */
  lemma {:induction false} CharactersJoin(s: string)
    ensures Concat(Characters(s)) == s
  {
    if s != "" {
      CharactersJoin(s[1..]);
      assert Characters(s)[1..] == Characters(s[1..]);
      assert s == [s[0]] + s[1..];
    }
  }

  lemma {:induction false} SpacedWords(ws: seq<string>)
    requires AllClean(ws)
    ensures Words(Concat(WithSpaces(ws))) == ws
  {
    if ws != [] {
      SpacedWords(ws[1..]);
      var rest := Concat(WithSpaces(ws[1..]));
      assert WithSpaces(ws)[1..] == WithSpaces(ws[1..]);
      assert Concat(WithSpaces(ws)) == ws[0] + (" " + rest);
      WordsCons(ws[0], " " + rest);
      assert (" " + rest)[1..] == rest;
    }
  }

  /** WORDS. The chunks of the word mode join to a text with the same words. */
  lemma {:induction false} WordsJoin(s: string)
    ensures Words(Concat(WithSpaces(Words(s)))) == Words(s)
  {
    SpacedWords(Words(s));
  }

  // ---- Blocks of bytes ----

  /** Every block of the given size ends between two characters. */
  ghost predicate Aligned(t: string, size: nat)
    requires size > 0
    decreases |t|
  {
    |Encode(t)| <= size || exists i :: 0 < i <= |t| && EndsAt(t, i, size) && Aligned(t[i..], size)
  }

  predicate EndsAt(t: string, i: nat, n: nat)
    requires i <= |t|
  {
    |Encode(t[..i])| == n
  }

  /** A cut at `c` falls behind the `i`-th character, or inside it: then `head` and `tail` are its parts. */
  ghost predicate CutAt(t: string, c: nat, i: nat, head: Bytes, tail: Bytes) {
    && c <= |Encode(t)| && i <= |t| && Encode(t)[..c] == Encode(t[..i]) + head
    && (head == [] <==> tail == [])
    && (head == [] ==> Encode(t)[c..] == Encode(t[i..]))
    && (head != [] ==> i < |t| && Encode(t)[c..] == tail + Encode(t[i + 1..]))
    && forall k :: 0 <= k < |tail| ==> Continues(tail[k])
  }

  lemma {:induction false} CutLater(t: string, e: Bytes, c: nat, i: nat, head: Bytes, tail: Bytes)
    requires t != "" && e == EncodeChar(t[0]) && CutAt(t[1..], c, i, head, tail)
    ensures CutAt(t, |e| + c, i + 1, head, tail)
  {
    var more := Encode(t[1..]);
    assert (e + more)[..|e| + c] == e + more[..c];
    assert (e + more)[|e| + c..] == more[c..];
    assert t[..i + 1][0] == t[0] && t[..i + 1][1..] == t[1..][..i];
    assert t[1..][i..] == t[i + 1..];
    Glue(e, Encode(t[1..][..i]), head);
    if head != [] {
      assert t[1..][i + 1..] == t[i + 2..];
    }
  }

  lemma {:induction false} CutFirst(t: string, e: Bytes, c: nat)
    requires t != "" && e == EncodeChar(t[0]) && 0 < c < |e|
    ensures CutAt(t, c, 0, e[..c], e[c..])
  {
    var more := Encode(t[1..]);
    assert (e + more)[..c] == e[..c] && (e + more)[c..] == e[c..] + more;
    assert t[..0] == "";
    Nothing(e[..c]);
  }

  lemma {:induction false} Locate(t: string, c: nat) returns (i: nat, head: Bytes, tail: Bytes)
    requires c <= |Encode(t)|
    ensures CutAt(t, c, i, head, tail)
    decreases |t|
  {
    if c == 0 {
      i, head, tail := 0, [], [];
      assert t[..0] == "" && t[0..] == t;
    } else {
      var e := EncodeChar(t[0]);
      if c < |e| {
        i, head, tail := 0, e[..c], e[c..];
        CutFirst(t, e, c);
      } else {
        i, head, tail := Locate(t[1..], c - |e|);
        CutLater(t, e, c - |e|, i, head, tail);
        i := i + 1;
      }
    }
  }

  /** Stray continuation bytes are replaced one by one. */
  lemma {:induction false} StrayDecode(ks: Bytes, rest: Bytes)
    requires forall k :: 0 <= k < |ks| ==> Continues(ks[k])
    ensures |Decode(ks + rest)| == |ks| + |Decode(rest)|
    decreases |ks|
  {
    if ks == [] {
      assert ks + rest == rest;
    } else {
      StrayDecode(ks[1..], rest);
      assert (ks + rest)[1..] == ks[1..] + rest;
      assert Chunk(ks + rest) == Piece(REPLACEMENT, 1);
    }
  }

  /** However a text is cut behind stray bytes, its blocks hold at least one character for each of both. */
  lemma {:induction false} BlocksAtLeast(ks: Bytes, t: string, size: nat)
    requires size > 0 && forall k :: 0 <= k < |ks| ==> Continues(ks[k])
    ensures |Concat(Blocks(ks + Encode(t), size))| >= |ks| + |t|
    decreases |ks| + |Encode(t)|
  {
    hide Decode;
    hide Encode;
    hide Blocks;
    hide Concat;
    var bs := ks + Encode(t);
    if |bs| <= size {
      DecodeEncode(t, []);
      Nothing(Encode(t));
      StrayDecode(ks, Encode(t));
      OneBlock(bs, size);
    } else {
      BlocksCons(bs, size);
      if size <= |ks| {
        assert bs[..size] == ks[..size] && bs[size..] == ks[size..] + Encode(t);
        StrayDecode(ks[..size], []);
        Nothing(ks[..size]);
        BlocksAtLeast(ks[size..], t, size);
      } else {
        var i, head, tail := Locate(t, size - |ks|);
        assert bs[..size] == ks + (Encode(t[..i]) + head);
        assert bs[size..] == Encode(t)[size - |ks|..];
        BlockAtLeast(ks, t[..i], head);
        if head == [] {
          Nothing(Encode(t[i..]));
          BlocksAtLeast([], t[i..], size);
        } else {
          BlocksAtLeast(tail, t[i + 1..], size);
        }
      }
    }
  }

  lemma {:induction false} BlockAtLeast(ks: Bytes, t: string, head: Bytes)
    requires forall k :: 0 <= k < |ks| ==> Continues(ks[k])
    ensures |Decode(ks + (Encode(t) + head))| >= |ks| + |t| + if head == [] then 0 else 1
  {
    StrayDecode(ks, Encode(t) + head);
    DecodeEncode(t, head);
  }

  lemma {:induction false} OneBlock(bs: Bytes, size: nat)
    requires 0 < size && |bs| <= size
    ensures Concat(Blocks(bs, size)) == Decode(bs)
  {
    if bs != [] {
      assert Concat([Decode(bs)][1..]) == "";
    }
  }

  lemma {:induction false} BlocksCons(bs: Bytes, size: nat)
    requires 0 < size < |bs|
    ensures Concat(Blocks(bs, size)) == Decode(bs[..size]) + Concat(Blocks(bs[size..], size))
  {
    assert Blocks(bs, size)[1..] == Blocks(bs[size..], size);
  }

  lemma {:induction false} EncodeGrows(t: string, i: nat, j: nat)
    requires i < j <= |t|
    ensures |Encode(t[..i])| < |Encode(t[..j])|
  {
    assert t[..j] == t[..i] + t[i..j];
    EncodeConcat(t[..i], t[i..j]);
    assert |Encode(t[i..j])| > 0;
  }

  lemma {:induction false} CutClean(t: string, size: nat, i: nat)
    requires 0 < size < |Encode(t)| && CutAt(t, size, i, [], [])
    ensures 0 < i && EndsAt(t, i, size) && (Aligned(t, size) <==> Aligned(t[i..], size))
  {
    Nothing(Encode(t[..i]));
    assert Encode(t[..0]) == [];
    if Aligned(t, size) {
      var j :| 0 < j <= |t| && EndsAt(t, j, size) && Aligned(t[j..], size);
      if i < j {
        EncodeGrows(t, i, j);
      } else if j < i {
        EncodeGrows(t, j, i);
      }
    }
  }

  lemma {:induction false} CutInside(t: string, size: nat, i: nat, head: Bytes, tail: Bytes)
    requires 0 < size < |Encode(t)| && CutAt(t, size, i, head, tail) && head != []
    ensures !Aligned(t, size)
  {
    assert t == t[..i + 1] + t[i + 1..];
    EncodeConcat(t[..i + 1], t[i + 1..]);
    forall j | 0 < j <= |t|
      ensures !EndsAt(t, j, size)
    {
      if j < i {
        EncodeGrows(t, j, i);
      } else if i + 1 < j {
        EncodeGrows(t, i + 1, j);
      }
    }
  }

  lemma {:induction false} JoinSplits(t: string, i: nat, x: string)
    requires i <= |t|
    ensures t[..i] + x == t <==> x == t[i..]
  {
    if t[..i] + x == t {
      assert (t[..i] + x)[i..] == x;
    }
  }

  /** BLOCKS. The chunks of the fixed mode join to the text exactly when every block of bytes ends between two
      characters; a block that ends inside one adds replacement characters. */
  lemma {:induction false} BlocksJoin(t: string, size: nat)
    requires size > 0
    ensures Concat(Blocks(Encode(t), size)) == t <==> Aligned(t, size)
    ensures |Concat(Blocks(Encode(t), size))| >= |t|
    decreases |t|
  {
    hide Decode;
    hide Encode;
    hide Blocks;
    hide Concat;
    var bs := Encode(t);
    Nothing(bs);
    BlocksAtLeast([], t, size);
    if |bs| <= size {
      OneBlock(bs, size);
      DecodeWhole(t);
    } else {
      BlocksCons(bs, size);
      var i, head, tail := Locate(t, size);
      if head == [] {
        CutClean(t, size, i);
        DecodeWhole(t[..i]);
        Nothing(Encode(t[..i]));
        BlocksJoin(t[i..], size);
        JoinSplits(t, i, Concat(Blocks(Encode(t[i..]), size)));
      } else {
        BlockAtLeast([], t[..i], head);
        Nothing(Encode(t[..i]) + head);
        BlocksAtLeast(tail, t[i + 1..], size);
        CutInside(t, size, i, head, tail);
      }
    }
  }

  /** One text that is not kept: a two-byte character in blocks of one byte. */
  lemma {:induction false} CharacterCut()
    ensures Concat(Blocks(Encode("\U{E9}"), 1)) != "\U{E9}"
  {
    hide Blocks;
    hide Concat;
    var t := "\U{E9}";
    BlocksJoin(t, 1);
    assert t[1..] == "" && Encode(t) == EncodeChar(t[0]) + [];
    assert |Encode(t)| == 2;
    assert t[..1] == t;
    assert !EndsAt(t, 1, 1);
  }

  /** In particular, one-byte characters are never cut. */
  lemma {:induction false} AsciiAligned(t: string, size: nat)
    requires size > 0 && forall i :: 0 <= i < |t| ==> t[i] as int < 0x80
    ensures Aligned(t, size)
    decreases |t|
  {
    AsciiSize(t);
    if |t| > size {
      AsciiSize(t[..size]);
      assert EndsAt(t, size, size);
      AsciiAligned(t[size..], size);
    }
  }

  lemma {:induction false} AsciiSize(t: string)
    requires forall i :: 0 <= i < |t| ==> t[i] as int < 0x80
    ensures |Encode(t)| == |t|
  {
    if t != "" {
      AsciiSize(t[1..]);
    }
  }

  // ---- The service's own bodies ----

  predicate Ascii(s: string) { forall i :: 0 <= i < |s| ==> s[i] as int < 0x80 }

  predicate ShortLabel(l: Label) { Ascii(l.name) && Ascii(l.value) && |l.name| < U8 && |l.value| < U16 }

  predicate ShortLabels(labels: seq<Label>) { forall i :: 0 <= i < |labels| ==> ShortLabel(labels[i]) }

  /** The bytes the headers of these labels take. */
  function LabelSize(labels: seq<Label>): nat {
    if labels == [] then 0 else |labels[0].name| + |labels[0].value| + 4 + LabelSize(labels[1..])
  }

  lemma {:induction false} LabelsSize(labels: seq<Label>)
    requires ShortLabels(labels)
    ensures HeadersFit(Labelled(labels)) && |EncodeHeaders(Labelled(labels))| == LabelSize(labels)
  {
    if labels != [] {
      LabelsSize(labels[1..]);
      LabelHead(labels);
      assert Labelled(labels) == [Labelled(labels)[0]] + Labelled(labels[1..]);
      FitsCons(Labelled(labels)[0], Labelled(labels[1..]));
    }
  }

  lemma {:induction false} LabelHead(labels: seq<Label>)
    requires labels != [] && ShortLabels(labels)
    ensures var h := Labelled(labels)[0];
            HeaderFits(h) && |EncodeHeader(h)| == |labels[0].name| + |labels[0].value| + 4
  {
    hide Encode;
    AsciiSize(labels[0].name);
    AsciiSize(labels[0].value);
  }

  lemma {:induction false} FitsCons(h: Header, hs: seq<Header>)
    requires HeaderFits(h) && HeadersFit(hs)
    ensures HeadersFit([h] + hs) && |EncodeHeaders([h] + hs)| == |EncodeHeader(h)| + |EncodeHeaders(hs)|
  {
    hide EncodeHeader;
    assert ([h] + hs)[1..] == hs;
  }

  lemma {:induction false} SizeCons(l: Label, labels: seq<Label>)
    ensures LabelSize([l] + labels) == |l.name| + |l.value| + 4 + LabelSize(labels)
    ensures ShortLabel(l) && ShortLabels(labels) ==> ShortLabels([l] + labels)
  {
    hide ShortLabel;
    assert ([l] + labels)[1..] == labels;
  }

  /** Four labels take the bytes of their texts, and four more each. */
  lemma {:induction false} FourLabels(a: Label, b: Label, c: Label, d: Label)
    ensures LabelSize([a, b, c, d]) == 16 + |a.name| + |a.value| + |b.name| + |b.value|
                                       + |c.name| + |c.value| + |d.name| + |d.value|
    ensures ShortLabel(a) && ShortLabel(b) && ShortLabel(c) && ShortLabel(d) ==> ShortLabels([a, b, c, d])
  {
    hide ShortLabel;
    ThreeLabels(b, c, d);
    assert [a] + [b, c, d] == [a, b, c, d];
    SizeCons(a, [b, c, d]);
  }

  lemma {:induction false} ThreeLabels(a: Label, b: Label, c: Label)
    ensures LabelSize([a, b, c]) == 12 + |a.name| + |a.value| + |b.name| + |b.value| + |c.name| + |c.value|
    ensures ShortLabel(a) && ShortLabel(b) && ShortLabel(c) ==> ShortLabels([a, b, c])
  {
    hide ShortLabel;
    var none: seq<Label> := [];
    assert [c] + none == [c] && [b] + [c] == [b, c] && [a] + [b, c] == [a, b, c];
    SizeCons(c, none);
    SizeCons(b, [c]);
    SizeCons(a, [b, c]);
  }

  lemma {:induction false} EventLabels()
    ensures ShortLabels(EVENT_LABELS) && LabelSize(EVENT_LABELS) == 75
  {
    hide LabelSize;
    hide ShortLabels;
    ThreeLabels(EVENT_LABELS[0], EVENT_LABELS[1], EVENT_LABELS[2]);
    assert [EVENT_LABELS[0], EVENT_LABELS[1], EVENT_LABELS[2]] == EVENT_LABELS;
  }

  lemma {:induction false} ErrorLabelsShort()
    ensures forall i :: 0 <= i < 4 ==> ShortLabel(ERROR_LABELS[i])
  {
  }

  lemma {:induction false} ErrorLabels()
    ensures ShortLabels(ERROR_LABELS) && LabelSize(ERROR_LABELS) == 143
  {
    hide LabelSize;
    hide ShortLabels;
    hide ShortLabel;
    ErrorLabelsShort();
    FourLabels(ERROR_LABELS[0], ERROR_LABELS[1], ERROR_LABELS[2], ERROR_LABELS[3]);
    assert [ERROR_LABELS[0], ERROR_LABELS[1], ERROR_LABELS[2], ERROR_LABELS[3]] == ERROR_LABELS;
  }

  lemma {:induction false} ServiceHeaders(c: Codec)
    requires IsService(c)
    ensures HeadersFit(c.eventHeaders) && |EncodeHeaders(c.eventHeaders)| == 75
    ensures HeadersFit(c.errorHeaders) && |EncodeHeaders(c.errorHeaders)| == 143
  {
    hide EncodeHeaders;
    hide HeadersFit;
    hide Labelled;
    hide LabelSize;
    EventLabels();
    ErrorLabels();
    LabelsSize(EVENT_LABELS);
    LabelsSize(ERROR_LABELS);
  }

  /** With the service's headers a body fits exactly when every payload, with the 91 or 159 bytes around it, does. */
  lemma {:induction false} ServiceFits(c: Codec, chunks: seq<string>)
    requires IsService(c)
    ensures CodecFits(c, chunks) <==>
              && |c.stop| + 91 < U32 && |c.error| + 159 < U32
              && forall i :: 0 <= i < |chunks| ==> |c.chunk(chunks[i])| + 91 < U32
  {
    hide EncodeHeaders;
    hide HeadersFit;
    hide Labelled;
    ServiceHeaders(c);
  }

  /** The texts of the chunks a reader got, given how it reads a payload. */
  function ReadTexts(fs: seq<Frame>, read: Bytes -> string): seq<string> {
    seq(|fs|, i requires 0 <= i < |fs| => read(fs[i].payload))
  }

  /** TEXT. A reader of an unbroken body joins the chunks it got to the text in character mode, and in fixed mode
      exactly when no block ends inside a character; in word mode it gets the text's words. */
  lemma {:induction false} TextRecovered(c: Codec, content: string, cfg: Config, body: Bytes, read: Bytes -> string)
    requires forall t :: read(c.chunk(t)) == t
    requires CodecFits(c, SplitChunks(content, cfg))
    requires Holds(c, body, Frames(c, SplitChunks(content, cfg), cfg.failAfter))
    requires Sent(SplitChunks(content, cfg), cfg.failAfter) == |SplitChunks(content, cfg)|
    ensures var fs := DecodeAll(c.crc, body);
            && fs.Some? && |fs.value| > 0
            && var text := Concat(ReadTexts(fs.value[..|fs.value| - 1], read));
               match cfg.mode
               case ByChar => text == content
               case Whole => text == content
               case ByWord => Words(text) == Words(content)
               case BySize => text == content <==> Aligned(content, if cfg.fixedSize > 1 then cfg.fixedSize else 1)
  {
    var chunks := SplitChunks(content, cfg);
    BodyDecodes(c, content, cfg, body);
    var fs := DecodeAll(c.crc, body).value;
    assert ReadTexts(fs[..|fs| - 1], read) == chunks;
    ChunksJoin(content, cfg);
  }

  lemma {:induction false} ChunksJoin(content: string, cfg: Config)
    ensures var text := Concat(SplitChunks(content, cfg));
            match cfg.mode
            case ByChar => text == content
            case Whole => text == content
            case ByWord => Words(text) == Words(content)
            case BySize => text == content <==> Aligned(content, if cfg.fixedSize > 1 then cfg.fixedSize else 1)
  {
    match cfg.mode
    case ByChar => CharactersJoin(content);
    case ByWord => WordsJoin(content);
    case BySize => BlocksJoin(content, if cfg.fixedSize > 1 then cfg.fixedSize else 1);
    case Whole => assert Concat([content][1..]) == "";
  }
}
