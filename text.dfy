/** Bytes, line text and the two string operations the drivers apply to it:
    fitting a text to the line width (gpio_conn.go and i2c_conn.go, Display)
    and cutting a message at line breaks (strings.Split in DisplayLines). */
module Text {
  import opened Consts

  /** A Go `byte`: arithmetic on it wraps modulo 256. */
  type Byte = bv8
  /** A Go string, restricted to single-byte characters. */
  type Bytes = seq<Byte>

  datatype Option<T> = None | Some(value: T)

  /** The errors the drivers report to their callers. */
  datatype Error =
    | TransportUnavailable(reason: string)  // the GPIO or I2C layer could not be opened
    | InvalidGlyph(length: nat)             // a glyph definition that is not 8 bytes long

  const Space: Byte := 0x20
  const Newline: Byte := 0x0A

  function Spaces(n: nat): (r: Bytes)
    ensures |r| == n && forall i :: 0 <= i < n ==> r[i] == Space
  {
    seq(n, _ => Space)
  }

  /** Whether Display's fitting step runs without a panic on a text of length `n`.
      The source chooses between padding and truncating by comparing `n` with the
      constant LcdWidth, but pads and truncates to `width`: padding by a negative
      count and slicing past the end both panic in Go. */
  predicate Fits(n: nat, width: int) {
    if n < LcdWidth then n <= width else 0 <= width <= n
  }

  /** Display's fitting step as written (gpio_conn.go:271-275, i2c_conn.go:132-136). */
  function Normalize(text: Bytes, width: nat): (r: Bytes)
    requires Fits(|text|, width)
    ensures r == PadOrTruncate(text, width)
  {
    if |text| < LcdWidth then text + Spaces(width - |text|) else text[..width]
  }

  /** The fitting step as intended: pad with spaces on the right up to `width`,
      or keep the first `width` bytes. Defined for every text and width. */
  function PadOrTruncate(text: Bytes, width: nat): (r: Bytes)
    ensures |r| == width
  {
    if |text| < width then text + Spaces(width - |text|) else text[..width]
  }

  /** Column i of the fitted text is column i of the text, or a space past its end. */
  lemma PadOrTruncateContents(text: Bytes, width: nat)
    ensures forall i :: 0 <= i < width ==> PadOrTruncate(text, width)[i] == if i < |text| then text[i] else Space
  {}

  /** Fitting is idempotent, and a text of exactly the width is left alone. */
  lemma PadOrTruncateIdempotent(text: Bytes, width: nat)
    ensures PadOrTruncate(PadOrTruncate(text, width), width) == PadOrTruncate(text, width)
    ensures |text| == width ==> PadOrTruncate(text, width) == text
  {}

  /** On a display of the default width the as-written step never panics. */
  lemma DefaultWidthAlwaysFits(n: nat)
    ensures Fits(n, LcdWidth)
  {}

  /** On a 20-column display every text of 16 to 19 bytes makes the as-written
      step slice past the end of the text; on a 12-column one every text of 13 to
      15 bytes makes it pad by a negative count. */
  lemma NormalizePanicsOffDefaultWidth(n: nat)
    ensures LcdWidth <= n < 20 ==> !Fits(n, 20)
    ensures 12 < n < LcdWidth ==> !Fits(n, 12)
  {}

  /** Go's strings.Split(s, string(sep)): the pieces between separators, in order;
      an empty string gives one empty piece. */
  function Split(s: Bytes, sep: Byte): (r: seq<Bytes>)
    ensures |r| >= 1
    decreases |s|
  {
    if s == [] then [[]]
    else
      var rest := Split(s[1..], sep);
      if s[0] == sep then [[]] + rest else [[s[0]] + rest[0]] + rest[1..]
  }

  /** strings.Join(segs, string(sep)), the inverse of Split. */
  function Join(segs: seq<Bytes>, sep: Byte): (r: Bytes)
    requires |segs| >= 1
    decreases |segs|
  {
    if |segs| == 1 then segs[0] else segs[0] + [sep] + Join(segs[1..], sep)
  }

  /** No piece of a split contains the separator. */
  lemma {:induction false} SplitPiecesHaveNoSeparator(s: Bytes, sep: Byte)
    ensures forall i :: 0 <= i < |Split(s, sep)| ==> sep !in Split(s, sep)[i]
    decreases |s|
  {
    if s != [] {
      SplitPiecesHaveNoSeparator(s[1..], sep);
    }
  }

  /** Joining the pieces with the separator gives back the message. */
  lemma {:induction false} JoinSplit(s: Bytes, sep: Byte)
    ensures Join(Split(s, sep), sep) == s
    decreases |s|
  {
    if s != [] {
      var rest := Split(s[1..], sep);
      JoinSplit(s[1..], sep);
      if s[0] == sep {
        assert ([[]] + rest)[1..] == rest;
      } else if |rest| == 1 {
        assert Join(rest, sep) == rest[0];
      } else {
        var r := [[s[0]] + rest[0]] + rest[1..];
        assert r[1..] == rest[1..];
        assert Join(rest, sep) == rest[0] + [sep] + Join(rest[1..], sep);
      }
    }
  }

  /** Splitting a piece without separators, then one separator, then the rest. */
  lemma {:induction false} SplitAtFirstSeparator(a: Bytes, sep: Byte, b: Bytes)
    requires sep !in a
    ensures Split(a + [sep] + b, sep) == [a] + Split(b, sep)
    ensures Split(a, sep) == [a]
    decreases |a|
  {
    if a == [] {
      assert [] + [sep] + b == [sep] + b;
      assert ([sep] + b)[1..] == b;
    } else {
      SplitAtFirstSeparator(a[1..], sep, b);
      assert (a + [sep] + b)[1..] == a[1..] + [sep] + b;
      assert [a[0]] + a[1..] == a;
    }
  }

  /** Splitting joined pieces gives back the pieces, when none holds the separator. */
  lemma {:induction false} SplitJoin(segs: seq<Bytes>, sep: Byte)
    requires |segs| >= 1
    requires forall i :: 0 <= i < |segs| ==> sep !in segs[i]
    ensures Split(Join(segs, sep), sep) == segs
    decreases |segs|
  {
    if |segs| == 1 {
      SplitAtFirstSeparator(segs[0], sep, []);
    } else {
      SplitJoin(segs[1..], sep);
      SplitAtFirstSeparator(segs[0], sep, Join(segs[1..], sep));
      assert [segs[0]] + segs[1..] == segs;
    }
  }
}
