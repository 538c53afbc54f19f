/** UTF-8 text as the SMTP server reads it: bytes decoded with a replacement character for each
    ill-formed part, and the encoding a well-behaved client writes. */
module Utf8 {
  type Byte = n: nat | n < 256
  type Bytes = seq<Byte>

  const LF: Byte := 10
  const CR: Byte := 13
  const REPLACEMENT: char := '\U{FFFD}'

  function EncodeChar(c: char): (bs: Bytes)
    ensures 1 <= |bs| <= 4
  {
    var n := c as int;
    if n < 0x80 then [n]
    else if n < 0x800 then [0xC0 + n / 64, 0x80 + n % 64]
    else if n < 0x1_0000 then [0xE0 + n / 4096, 0x80 + n / 64 % 64, 0x80 + n % 64]
    else [0xF0 + n / 262_144, 0x80 + n / 4096 % 64, 0x80 + n / 64 % 64, 0x80 + n % 64]
  }

  function Encode(s: string): Bytes {
    if s == "" then [] else EncodeChar(s[0]) + Encode(s[1..])
  }

  predicate Continues(b: Byte) { 0x80 <= b < 0xC0 }

  /** Whether `b1` may follow the lead byte `b0` of a sequence of three or four bytes. */
  predicate Second(b0: Byte, b1: Byte) {
    if b0 == 0xE0 then 0xA0 <= b1 < 0xC0
    else if b0 == 0xED then 0x80 <= b1 < 0xA0
    else if b0 == 0xF0 then 0x90 <= b1 < 0xC0
    else if b0 == 0xF4 then 0x80 <= b1 < 0x90
    else Continues(b1)
  }

  /** The six payload bits of a continuation byte. */
  function Low(b: Byte): int { b as int - 0x80 }

  datatype Piece = Piece(c: char, width: nat)

  /** The first character, or one replacement for the longest ill-formed start. */
  function Chunk(s: Bytes): (p: Piece)
    requires s != []
    ensures 1 <= p.width <= |s|
  {
    var b := s[0];
    if b < 0x80 then Piece(b as char, 1)
    else if 0xC2 <= b < 0xE0 then
      if |s| < 2 || !Continues(s[1]) then Piece(REPLACEMENT, 1)
      else Piece(((b as int - 0xC0) * 64 + Low(s[1])) as char, 2)
    else if 0xE0 <= b < 0xF0 then Chunk3(s)
    else if 0xF0 <= b < 0xF5 then Chunk4(s)
    else Piece(REPLACEMENT, 1)
  }

  function Chunk3(s: Bytes): (p: Piece)
    requires s != [] && 0xE0 <= s[0] < 0xF0
    ensures 1 <= p.width <= |s|
  {
    if |s| < 2 || !Second(s[0], s[1]) then Piece(REPLACEMENT, 1)
    else if |s| < 3 || !Continues(s[2]) then Piece(REPLACEMENT, 2)
    else Piece(((s[0] as int - 0xE0) * 4096 + Low(s[1]) * 64 + Low(s[2])) as char, 3)
  }

  function Chunk4(s: Bytes): (p: Piece)
    requires s != [] && 0xF0 <= s[0] < 0xF5
    ensures 1 <= p.width <= |s|
  {
    if |s| < 2 || !Second(s[0], s[1]) then Piece(REPLACEMENT, 1)
    else if |s| < 3 || !Continues(s[2]) then Piece(REPLACEMENT, 2)
    else if |s| < 4 || !Continues(s[3]) then Piece(REPLACEMENT, 3)
    else Piece(((s[0] as int - 0xF0) * 262_144 + Low(s[1]) * 4096 + Low(s[2]) * 64 + Low(s[3])) as char, 4)
  }

  /** `String::from_utf8_lossy`. */
  function Decode(s: Bytes): string
    decreases |s|
  {
    if s == [] then "" else
      var p := Chunk(s);
      [p.c] + Decode(s[p.width..])
  }

  lemma {:induction false} Digits(n: nat)
    ensures n == n / 64 * 64 + n % 64 && n / 64 == n / 4096 * 64 + n / 64 % 64
    ensures n / 4096 == n / 262_144 * 64 + n / 4096 % 64
  {
  }

  lemma {:induction false} Chunk3OfEncode(c: char, rest: Bytes)
    requires 0x800 <= c as int < 0x1_0000
    ensures Chunk3(EncodeChar(c) + rest) == Piece(c, 3)
  {
    var n := c as int;
    var s := EncodeChar(c) + rest;
    Digits(n);
    assert s[1] == 0x80 + n / 64 % 64 && s[2] == 0x80 + n % 64;
    assert n == (s[0] as int - 0xE0) * 4096 + Low(s[1]) * 64 + Low(s[2]);
  }

  lemma {:induction false} Chunk4OfEncode(c: char, rest: Bytes)
    requires 0x1_0000 <= c as int
    ensures Chunk4(EncodeChar(c) + rest) == Piece(c, 4)
  {
    var n := c as int;
    var s := EncodeChar(c) + rest;
    Digits(n);
    assert s[1] == 0x80 + n / 4096 % 64 && s[2] == 0x80 + n / 64 % 64 && s[3] == 0x80 + n % 64;
    assert n == (s[0] as int - 0xF0) * 262_144 + Low(s[1]) * 4096 + Low(s[2]) * 64 + Low(s[3]);
  }

  lemma {:induction false} ChunkOfEncode(c: char, rest: Bytes)
    ensures Chunk(EncodeChar(c) + rest) == Piece(c, |EncodeChar(c)|)
  {
    if 0x1_0000 <= c as int {
      Chunk4OfEncode(c, rest);
    } else if 0x800 <= c as int {
      Chunk3OfEncode(c, rest);
    }
  }

  lemma {:induction false} DecodeStep(c: char, e: Bytes, tail: Bytes)
    requires e != [] && Chunk(e + tail) == Piece(c, |e|)
    ensures Decode(e + tail) == [c] + Decode(tail)
  {
    assert (e + tail)[|e|..] == tail;
  }

  lemma {:induction false} DecodeChar(c: char, tail: Bytes)
    ensures Decode(EncodeChar(c) + tail) == [c] + Decode(tail)
  {
    ChunkOfEncode(c, tail);
    DecodeStep(c, EncodeChar(c), tail);
  }

  lemma {:induction false} DecodeCons(s: string, e: Bytes, t: Bytes, rest: Bytes)
    requires s != "" && Decode(e + (t + rest)) == [s[0]] + Decode(t + rest)
    requires Decode(t + rest) == s[1..] + Decode(rest)
    ensures Decode((e + t) + rest) == s + Decode(rest)
  {
    assert (e + t) + rest == e + (t + rest);
    assert [s[0]] + (s[1..] + Decode(rest)) == s + Decode(rest);
  }

  /** Encoded text is decoded as it was, whatever bytes follow it. */
  lemma {:induction false} DecodeEncode(s: string, rest: Bytes)
    ensures Decode(Encode(s) + rest) == s + Decode(rest)
    decreases |s|
  {
    if s == "" {
      assert Encode(s) + rest == rest;
    } else {
      var e, t := EncodeChar(s[0]), Encode(s[1..]);
      DecodeChar(s[0], t + rest);
      DecodeEncode(s[1..], rest);
      DecodeCons(s, e, t, rest);
    }
  }

  lemma {:induction false} DecodeWhole(s: string)
    ensures Decode(Encode(s)) == s
  {
    hide Encode;
    DecodeEncode(s, []);
    assert Encode(s) + [] == Encode(s);
    assert s + "" == s;
  }

  lemma {:induction false} EncodeConcat(s: string, t: string)
    ensures Encode(s + t) == Encode(s) + Encode(t)
  {
    hide EncodeChar;
    if s == "" {
      assert s + t == t;
    } else {
      EncodeConcat(s[1..], t);
      assert (s + t)[0] == s[0] && (s + t)[1..] == s[1..] + t;
      var e, x, y := EncodeChar(s[0]), Encode(s[1..]), Encode(t);
      assert e + (x + y) == (e + x) + y;
    }
  }

  /** The byte LF occurs in an encoding only for the character LF. */
  lemma {:induction false} EncodeNoLf(s: string)
    requires '\n' !in s
    ensures LF !in Encode(s)
  {
    if s != "" {
      EncodeNoLf(s[1..]);
    }
  }

  lemma {:induction false} EncodeSize(s: string)
    ensures |Encode(s)| <= 4 * |s|
  {
    if s != "" {
      EncodeSize(s[1..]);
    }
  }

  // ---- Lossy decoding, exactly ----

  /** The bytes begin the encoding of some character. */
  ghost predicate Begins(bs: Bytes) { exists d :: bs <= EncodeChar(d) }

  /** What the Unicode Standard's practice for ill-formed text (section 3.9) makes of the start of some bytes: the
      character whose encoding stands there, else a replacement for the longest start that could have become one, or for
      one byte. */
  ghost predicate IsPiece(s: Bytes, p: Piece) {
    && 1 <= p.width <= |s|
    && if exists d :: EncodeChar(d) <= s then EncodeChar(p.c) <= s && p.width == |EncodeChar(p.c)|
       else
         && p.c == REPLACEMENT && (p.width > 1 ==> Begins(s[..p.width]))
         && forall w :: p.width < w <= |s| ==> !Begins(s[..w])
  }

  /** The lead byte, and the bytes that may follow it. */
  lemma {:induction false} EncodingShape(d: char)
    ensures var e := EncodeChar(d);
            && (|e| == 1 ==> e[0] < 0x80)
            && (|e| == 2 ==> 0xC2 <= e[0] < 0xE0 && Continues(e[1]))
            && (|e| == 3 ==> 0xE0 <= e[0] < 0xF0 && Second(e[0], e[1]) && Continues(e[2]))
            && (|e| == 4 ==> 0xF0 <= e[0] < 0xF5 && Second(e[0], e[1]) && Continues(e[2]) && Continues(e[3]))
  {
  }

  /** Bytes of three or four that begin a character. */
  lemma {:induction false} BeginsShape(bs: Bytes)
    requires Begins(bs) && |bs| > 1
    ensures |bs| <= 4 && 0xC2 <= bs[0] < 0xF5
    ensures bs[0] < 0xE0 ==> |bs| == 2 && Continues(bs[1])
    ensures 0xE0 <= bs[0] < 0xF0 ==> |bs| <= 3 && Second(bs[0], bs[1])
    ensures 0xF0 <= bs[0] ==> Second(bs[0], bs[1])
    ensures 0xE0 <= bs[0] && |bs| > 2 ==> Continues(bs[2])
    ensures 0xE0 <= bs[0] && |bs| > 3 ==> Continues(bs[3])
  {
    var d :| bs <= EncodeChar(d);
    EncodingShape(d);
    assert forall i :: 0 <= i < |bs| ==> bs[i] == EncodeChar(d)[i];
  }

  lemma {:induction false} ThreeBegin(a: Byte, b: Byte) returns (d: char)
    requires 0xE0 <= a < 0xF0 && Second(a, b)
    ensures [a, b] <= EncodeChar(d)
  {
    var n := (a as int - 0xE0) * 4096 + Low(b) * 64;
    d := n as char;
    Digits(n);
    assert n / 4096 == a - 0xE0 && n / 64 % 64 == Low(b);
  }

  lemma {:induction false} FourBegin(a: Byte, b: Byte, c: Byte) returns (d: char)
    requires 0xF0 <= a < 0xF5 && Second(a, b) && Continues(c)
    ensures [a, b] <= EncodeChar(d) && [a, b, c] <= EncodeChar(d)
  {
    var n := (a as int - 0xF0) * 262_144 + Low(b) * 4096 + Low(c) * 64;
    d := n as char;
    Digits(n);
    assert n / 262_144 == a - 0xF0 && n / 4096 % 64 == Low(b) && n / 64 % 64 == Low(c);
  }

  /** A character that stands at the start is what is read there. */
  lemma {:induction false} ReadThere(s: Bytes, d: char)
    requires EncodeChar(d) <= s
    ensures s != [] && Chunk(s) == Piece(d, |EncodeChar(d)|)
  {
    var e := EncodeChar(d);
    assert s == e + s[|e|..];
    ChunkOfEncode(d, s[|e|..]);
  }

  lemma {:induction false} TwoBack(a: Byte, b: Byte) returns (d: char)
    requires 0xC2 <= a < 0xE0 && Continues(b)
    ensures EncodeChar(d) == [a, b]
  {
    var n := (a as int - 0xC0) * 64 + Low(b);
    d := n as char;
    Digits(n);
  }

  lemma {:induction false} ThreeBack(a: Byte, b: Byte, c: Byte) returns (d: char)
    requires 0xE0 <= a < 0xF0 && Second(a, b) && Continues(c)
    ensures EncodeChar(d) == [a, b, c]
  {
    var n := (a as int - 0xE0) * 4096 + Low(b) * 64 + Low(c);
    d := n as char;
    Digits(n);
    assert n / 4096 == a - 0xE0 && n / 64 % 64 == Low(b);
  }

  lemma {:induction false} FourBack(a: Byte, b: Byte, c: Byte, e: Byte) returns (d: char)
    requires 0xF0 <= a < 0xF5 && Second(a, b) && Continues(c) && Continues(e)
    ensures EncodeChar(d) == [a, b, c, e]
  {
    var n := (a as int - 0xF0) * 262_144 + Low(b) * 4096 + Low(c) * 64 + Low(e);
    d := n as char;
    Digits(n);
    assert n / 262_144 == a - 0xF0 && n / 4096 % 64 == Low(b) && n / 64 % 64 == Low(c);
  }

  /** The bytes start with a whole character, by their lead byte and what follows. */
  predicate WellFormed(s: Bytes) {
    && s != []
    && (|| s[0] < 0x80
        || (0xC2 <= s[0] < 0xE0 && |s| > 1 && Continues(s[1]))
        || (0xE0 <= s[0] < 0xF0 && |s| > 2 && Second(s[0], s[1]) && Continues(s[2]))
        || (0xF0 <= s[0] < 0xF5 && |s| > 3 && Second(s[0], s[1]) && Continues(s[2]) && Continues(s[3])))
  }

  lemma {:induction false} CharacterStands(s: Bytes) returns (d: char)
    requires WellFormed(s)
    ensures EncodeChar(d) <= s
  {
    if s[0] < 0x80 {
      d := s[0] as char;
      assert [s[0]] <= s;
    } else if s[0] < 0xE0 {
      d := TwoBack(s[0], s[1]);
    } else if s[0] < 0xF0 {
      d := ThreeBack(s[0], s[1], s[2]);
    } else {
      d := FourBack(s[0], s[1], s[2], s[3]);
    }
  }

  lemma {:induction false} StandingShape(s: Bytes, d: char)
    requires EncodeChar(d) <= s
    ensures WellFormed(s)
  {
    EncodingShape(d);
    var e := EncodeChar(d);
    assert forall i :: 0 <= i < |e| ==> s[i] == e[i];
  }

  /** Ill-formed bytes: one replacement for the longest start of a character. */
  lemma {:induction false} Maximal(s: Bytes)
    requires s != [] && !WellFormed(s)
    ensures var p := Chunk(s);
            && p.c == REPLACEMENT && (p.width > 1 ==> Begins(s[..p.width]))
            && forall w :: p.width < w <= |s| ==> !Begins(s[..w])
  {
    hide EncodeChar;
    var p := Chunk(s);
    if p.width > 1 {
      if s[0] < 0xF0 {
        var d := ThreeBegin(s[0], s[1]);
        assert s[..2] == [s[0], s[1]];
      } else {
        var d := FourBegin(s[0], s[1], if p.width == 3 then s[2] else 0x80);
        assert s[..p.width] == if p.width == 3 then [s[0], s[1], s[2]] else [s[0], s[1]];
      }
    }
    forall w | p.width < w <= |s|
      ensures !Begins(s[..w])
    {
      if Begins(s[..w]) {
        BeginsShape(s[..w]);
        assert false;
      }
    }
  }

  lemma {:induction false} ChunkIsPiece(s: Bytes)
    requires s != []
    ensures IsPiece(s, Chunk(s))
  {
    hide EncodeChar;
    hide Chunk;
    hide Begins;
    if WellFormed(s) {
      var d := CharacterStands(s);
      ReadThere(s, d);
    } else {
      Maximal(s);
      forall d ensures !(EncodeChar(d) <= s) {
        if EncodeChar(d) <= s {
          StandingShape(s, d);
        }
      }
    }
  }

  lemma {:induction false} PieceIsOne(s: Bytes, p: Piece)
    requires IsPiece(s, p)
    ensures p == Chunk(s)
  {
    hide EncodeChar;
    hide Chunk;
    ChunkIsPiece(s);
    if d :| EncodeChar(d) <= s {
      ReadThere(s, p.c);
    }
  }

  /** The text is read from the bytes piece by piece. */
  ghost predicate Lossy(s: Bytes, t: string)
    decreases |t|
  {
    if s == [] then t == ""
    else t != "" && exists p :: IsPiece(s, p) && p.c == t[0] && Lossy(s[p.width..], t[1..])
  }

  /** DECODING. Whatever the bytes, the decoded text is the one that Unicode's practice reads from them. */
  lemma {:induction false} DecodeExactly(s: Bytes, t: string)
    ensures Lossy(s, t) <==> t == Decode(s)
    decreases |t|
  {
    hide Chunk;
    hide EncodeChar;
    hide Begins;
    if s != [] && t != "" {
      ChunkIsPiece(s);
      var p := Chunk(s);
      DecodeExactly(s[p.width..], t[1..]);
      assert t == [t[0]] + t[1..];
      if Lossy(s, t) {
        var q :| IsPiece(s, q) && q.c == t[0] && Lossy(s[q.width..], t[1..]);
        PieceIsOne(s, q);
      }
    }
  }
}
