/** Iterating over a Go string with `for _, c := range s`: each step decodes
    one rune from the bytes at the current position as UTF-8, with the
    acceptance ranges of Go's unicode/utf8 decoder. A byte that starts no
    valid encoding, or an encoding cut short, yields U+FFFD (RuneError) and
    advances by one byte. `byte(c)` keeps the low 8 bits of the code point. */
module Utf8 {
  import opened Text
  import opened Seqs

  /** A continuation byte, 10xxxxxx. */
  predicate Continuation(b: Byte) {
    0x80 <= b <= 0xBF
  }

  /** The second bytes Go accepts after the lead byte `b0`: narrower after
      0xE0 and 0xF0 (no overlong forms), after 0xED (no surrogates) and after
      0xF4 (nothing above U+10FFFF). */
  predicate SecondOk(b0: Byte, b1: Byte) {
    if b0 == 0xE0 then 0xA0 <= b1 <= 0xBF
    else if b0 == 0xED then 0x80 <= b1 <= 0x9F
    else if b0 == 0xF0 then 0x90 <= b1 <= 0xBF
    else if b0 == 0xF4 then 0x80 <= b1 <= 0x8F
    else Continuation(b1)
  }

  /** How many bytes the rune at the head of `s` takes. */
  function RuneSize(s: Bytes): (n: nat)
    requires s != []
    ensures 1 <= n <= 4 && n <= |s|
    ensures s[0] < 0x80 ==> n == 1
  {
    var b0 := s[0];
    if 0xC2 <= b0 <= 0xDF then
      if 2 <= |s| && Continuation(s[1]) then 2 else 1
    else if 0xE0 <= b0 <= 0xEF then
      if 3 <= |s| && SecondOk(b0, s[1]) && Continuation(s[2]) then 3 else 1
    else if 0xF0 <= b0 <= 0xF4 then
      if 4 <= |s| && SecondOk(b0, s[1]) && Continuation(s[2]) && Continuation(s[3]) then 4 else 1
    else 1
  }

  /** The code point of the rune at the head of `s`. */
  function CodePoint(s: Bytes): int
    requires s != []
  {
    var n := RuneSize(s);
    if n == 1 then (if s[0] < 0x80 then s[0] as int else 0xFFFD)
    else if n == 2 then CodePoint2(s[0], s[1])
    else if n == 3 then CodePoint3(s[0], s[1], s[2])
    else CodePoint4(s[0], s[1], s[2], s[3])
  }

  /** The code point of a two-byte encoding: 5 + 6 payload bits. */
  function CodePoint2(b0: Byte, b1: Byte): int {
    (b0 & 0x1F) as int * 0x40 + (b1 & 0x3F) as int
  }

  /** The code point of a three-byte encoding: 4 + 6 + 6 payload bits. */
  function CodePoint3(b0: Byte, b1: Byte, b2: Byte): int {
    (b0 & 0x0F) as int * 0x1000 + (b1 & 0x3F) as int * 0x40 + (b2 & 0x3F) as int
  }

  /** The code point of a four-byte encoding: 3 + 6 + 6 + 6 payload bits. */
  function CodePoint4(b0: Byte, b1: Byte, b2: Byte, b3: Byte): int {
    (b0 & 0x07) as int * 0x40000 + (b1 & 0x3F) as int * 0x1000
      + (b2 & 0x3F) as int * 0x40 + (b3 & 0x3F) as int
  }

  /** `byte(c)` of the rune at the head of `s`: its last two bytes carry the low
      eight bits of the code point. */
  function Glyph(s: Bytes): (b: Byte)
    requires s != []
    ensures s[0] < 0x80 ==> b == s[0]
  {
    var n := RuneSize(s);
    if n == 1 then (if s[0] < 0x80 then s[0] else 0xFD)
    else LowByte(s[n - 2], s[n - 1])
  }

  /** The low eight bits of a code point whose last two encoded bytes are `a`
      and `c`: the two low bits of `a`'s payload, then `c`'s six. */
  function LowByte(a: Byte, c: Byte): Byte {
    ((a & 0x03) << 6) | (c & 0x3F)
  }

  /** The value of that byte as a number. */
  lemma LowByteValue(a: Byte, c: Byte)
    ensures LowByte(a, c) as int == (a & 0x03) as int * 0x40 + (c & 0x3F) as int
  {}

  /** The bytes `for _, c := range text { ... byte(c) ... }` produces, one per
      rune, in order. */
  function Glyphs(text: Bytes): (r: Bytes)
    ensures |r| <= |text|
    decreases |text|
  {
    if text == [] then [] else [Glyph(text)] + Glyphs(text[RuneSize(text)..])
  }

  /** Text made of bytes below 0x80 only. */
  predicate Ascii(text: Bytes) {
    forall i :: 0 <= i < |text| ==> text[i] < 0x80
  }

  /** A payload of five or six bits is four times its upper bits plus its two
      low bits. */
  lemma PayloadSplit(a: Byte)
    ensures (a & 0x1F) as int == ((a & 0x1F) >> 2) as int * 4 + (a & 0x03) as int
    ensures (a & 0x3F) as int == ((a & 0x3F) >> 2) as int * 4 + (a & 0x03) as int
    ensures (a & 0x03) as int < 4 && (a & 0x3F) as int < 0x40
  {}

  /** Whole multiples of 256 drop out of the low byte. */
  lemma LowOfPayload(x: int, q: int, r: int, p: int)
    requires 0 <= r < 4 && 0 <= p < 0x40
    ensures (x * 0x100 + (4 * q + r) * 0x40 + p) % 0x100 == r * 0x40 + p
  {
    assert x * 0x100 + (4 * q + r) * 0x40 + p == (x + q) * 0x100 + (r * 0x40 + p);
  }

  /** The low byte of a two-byte rune's code point. */
  lemma LowOfTwo(b0: Byte, b1: Byte)
    ensures LowByte(b0, b1) as int == CodePoint2(b0, b1) % 0x100
  {
    LowByteValue(b0, b1);
    PayloadSplit(b0);
    PayloadSplit(b1);
    LowOfPayload(0, ((b0 & 0x1F) >> 2) as int, (b0 & 0x03) as int, (b1 & 0x3F) as int);
  }

  /** The low byte of a three-byte rune's code point. */
  lemma LowOfThree(b0: Byte, b1: Byte, b2: Byte)
    ensures LowByte(b1, b2) as int == CodePoint3(b0, b1, b2) % 0x100
  {
    LowByteValue(b1, b2);
    PayloadSplit(b1);
    PayloadSplit(b2);
    var x := (b0 & 0x0F) as int * 0x10;
    LowOfPayload(x, ((b1 & 0x3F) >> 2) as int, (b1 & 0x03) as int, (b2 & 0x3F) as int);
  }

  /** The low byte of a four-byte rune's code point. */
  lemma LowOfFour(b0: Byte, b1: Byte, b2: Byte, b3: Byte)
    ensures LowByte(b2, b3) as int == CodePoint4(b0, b1, b2, b3) % 0x100
  {
    LowByteValue(b2, b3);
    PayloadSplit(b2);
    PayloadSplit(b3);
    var x := (b0 & 0x07) as int * 0x400 + (b1 & 0x3F) as int * 0x10;
    LowOfPayload(x, ((b2 & 0x3F) >> 2) as int, (b2 & 0x03) as int, (b3 & 0x3F) as int);
  }

  /** byte(c) is the code point modulo 256, for every rune Go decodes. */
  lemma GlyphIsLowByte(s: Bytes)
    requires s != []
    ensures Glyph(s) as int == CodePoint(s) % 0x100
  {
    var n := RuneSize(s);
    if n == 1 {
      if s[0] < 0x80 {
        assert Glyph(s) as int == CodePoint(s) == s[0] as int < 0x80;
      } else {
        assert Glyph(s) as int == 0xFD && CodePoint(s) == 0xFFFD;
      }
    } else if n == 2 {
      LowOfTwo(s[0], s[1]);
    } else if n == 3 {
      LowOfThree(s[0], s[1], s[2]);
    } else {
      LowOfFour(s[0], s[1], s[2], s[3]);
    }
  }

  /** Go never decodes an overlong form, a surrogate or a value past U+10FFFF:
      each encoding length covers exactly its own code point range. */
  lemma CodePointRange(s: Bytes)
    requires s != []
    ensures RuneSize(s) == 1 ==> CodePoint(s) < 0x80 || CodePoint(s) == 0xFFFD
    ensures RuneSize(s) == 2 ==> 0x80 <= CodePoint(s) < 0x800
    ensures RuneSize(s) == 3 ==> 0x800 <= CodePoint(s) < 0x10000 && !(0xD800 <= CodePoint(s) < 0xE000)
    ensures RuneSize(s) == 4 ==> 0x10000 <= CodePoint(s) <= 0x10FFFF
  {
  }

  /** Text below 0x80 comes out byte for byte. */
  lemma {:induction false} GlyphsAscii(text: Bytes)
    requires Ascii(text)
    ensures Glyphs(text) == text
    decreases |text|
  {
    if text != [] {
      assert RuneSize(text) == 1;
      GlyphsAscii(text[1..]);
    }
  }

  /** A line made to fill the display from ASCII text stays ASCII: the
      padding is spaces. */
  lemma PaddedAscii(text: Bytes, width: nat)
    requires Ascii(text)
    ensures Ascii(PadOrTruncate(text, width))
    ensures Glyphs(PadOrTruncate(text, width)) == PadOrTruncate(text, width)
  {
    PadOrTruncateContents(text, width);
    GlyphsAscii(PadOrTruncate(text, width));
  }

  /** Runes and their byte(c): "é" (U+00E9) is the one byte 0xE9 and "€"
      (U+20AC) is 0xAC. */
  lemma GlyphsOfRunes()
    ensures Glyphs([0xC3, 0xA9]) == [0xE9]
    ensures Glyphs([0xE2, 0x82, 0xAC]) == [0xAC]
  {
  }

  /** Bytes that encode no rune: a stray continuation byte or a truncated
      encoding is U+FFFD and so 0xFD, and an encoded surrogate is three bad
      bytes. */
  lemma GlyphsOfBadBytes()
    ensures Glyphs([0x80]) == [0xFD]
    ensures Glyphs([0x41, 0xC3]) == [0x41, 0xFD]
    ensures Glyphs([0xED, 0xA0, 0x80]) == [0xFD, 0xFD, 0xFD]
  {
  }

  /** One step of `range`: with the bytes of the runes already decoded in
      `done`, decoding the rune at the head of what remains produces the next
      byte and moves past that rune. */
  lemma GlyphsNext(whole: Bytes, rest: Bytes, done: Bytes)
    requires rest != []
    requires done + Glyphs(rest) == whole
    ensures done + [Glyph(rest)] + Glyphs(rest[RuneSize(rest)..]) == whole
  {
    GlyphsCons(rest);
    Concat2(done, [Glyph(rest)], Glyphs(rest[RuneSize(rest)..]));
  }

  /** The first rune's byte, then the bytes of the runes after it. */
  lemma GlyphsCons(s: Bytes)
    requires s != []
    ensures Glyphs(s) == [Glyph(s)] + Glyphs(s[RuneSize(s)..])
  {}
}
