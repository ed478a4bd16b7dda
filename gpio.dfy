/** The GPIO4bit driver (gpio_conn.go): an HD44780 wired to six GPIO lines in
    4-bit mode. Every pin change and every wait the driver performs is appended
    to `trace`; the pin events of one byte are those of `Protocol.ByteFrame`. */
module Gpio {
  import opened Consts
  import opened Text
  import opened RedrawCache
  import opened Protocol
  import opened Seqs

  /** A Set-DDRAM-address instruction followed by one data write per byte. */
  function LineWrite(addr: Byte, text: Bytes): (r: seq<Transfer>)
    ensures |r| == 1 + |text| && r[0] == Command(addr) && r[1..] == Chars(text)
  {
    [Command(addr)] + Chars(text)
  }

  /** The transfers a sequence of line rewrites sends: each rewrite addresses
      its line through `addrs` and then writes its bytes. Display and
      DisplayLines require an address for every line they rewrite; a line
      without one would send nothing. */
  function LineWrites(addrs: seq<Byte>, writes: seq<Write>): seq<Transfer>
    decreases |writes|
  {
    if writes == [] then []
    else
      var w := writes[|writes| - 1];
      LineWrites(addrs, writes[..|writes| - 1])
        + if w.line < |addrs| then LineWrite(addrs[w.line], w.text) else []
  }

  /** The number of transfers of `writes`: one address and one byte per character. */
  function Sum(writes: seq<Write>): nat
    decreases |writes|
  {
    if writes == [] then 0 else Sum(writes[..|writes| - 1]) + 1 + |writes[|writes| - 1].text|
  }

  /** When every rewritten line has an address, each rewrite sends one address
      and one transfer per byte. */
  lemma {:induction false} LineWritesLength(addrs: seq<Byte>, writes: seq<Write>)
    requires forall k :: 0 <= k < |writes| ==> writes[k].line < |addrs|
    ensures |LineWrites(addrs, writes)| == Sum(writes)
    decreases |writes|
  {
    if writes != [] {
      LineWritesLength(addrs, writes[..|writes| - 1]);
    }
  }

  /** Clear and Close blank the four lines, always at the addresses lcdLine1,
      lcdLine2, lcdLine3 and lcdLine4 and always lcdWidth columns wide. */
  function Blanking(line3: Byte, line4: Byte): (r: seq<Transfer>)
    ensures |r| == 4 * (1 + LcdWidth)
  {
    LineWrite(LcdLine1, Spaces(LcdWidth)) + LineWrite(LcdLine2, Spaces(LcdWidth))
      + LineWrite(line3, Spaces(LcdWidth)) + LineWrite(line4, Spaces(LcdWidth))
  }

  /** The six lines driven low, in the order Close drives them. */
  function AllLow(): seq<Event> {
    [Drive(RS, false), Drive(E, false), Drive(D4, false), Drive(D5, false), Drive(D6, false), Drive(D7, false)]
  }

  /** The Set-CGRAM-address instruction of SetChar: 0x40 + pos * 8 in byte
      arithmetic, so it wraps modulo 256. */
  function CgramCommand(pos: Byte): (r: Byte)
    ensures r as int == (0x40 + 8 * pos as int) % 256
  {
    0x40 + pos * 8
  }

  /** For glyph slots 0..7 the command is a Set-CGRAM-address instruction
      (bits 7..6 = 01) whose address is the first row of slot `pos`; from slot 8
      on the byte leaves the CGRAM instruction and overlaps others. */
  lemma CgramCommandAddressesSlot(pos: Byte)
    ensures pos < 8 ==> CgramCommand(pos) & 0xC0 == 0x40 && (CgramCommand(pos) & 0x3F) as int == 8 * pos as int
    ensures 8 <= pos < 16 ==> CgramCommand(pos) & 0x80 == 0x80
    ensures CgramCommand(pos + 32) == CgramCommand(pos)
  {}

  /** The instruction Close sends after Clear display, 0x0C, is a display
      control instruction (bits 7..3 = 00001) with the display bit (bit 2) set
      and cursor and blink off: the same instruction the initialisation uses to
      switch the display on. Close therefore leaves the display on. */
  lemma CloseInstructionKeepsDisplayOn()
    ensures var c: Byte := 0x0C; c & 0xF8 == 0x08 && c & 0x04 == 0x04 && c & 0x03 == 0
    ensures Command(0x0C) in InitCommands()
  {}

  /** Rewrites sent one batch after another send the concatenated transfers. */
  lemma {:induction false} LineWritesAppend(addrs: seq<Byte>, a: seq<Write>, b: seq<Write>)
    ensures LineWrites(addrs, a + b) == LineWrites(addrs, a) + LineWrites(addrs, b)
    decreases |b|
  {
    if b == [] {
      assert a + b == a;
    } else {
      var init, w := b[..|b| - 1], b[|b| - 1];
      var tail := if w.line < |addrs| then LineWrite(addrs[w.line], w.text) else [];
      assert (a + b)[..|a + b| - 1] == a + init;
      assert (a + b)[|a + b| - 1] == w;
      assert LineWrites(addrs, a + b) == LineWrites(addrs, a + init) + tail;
      assert LineWrites(addrs, b) == LineWrites(addrs, init) + tail;
      LineWritesAppend(addrs, a, init);
      Concat2(LineWrites(addrs, a), LineWrites(addrs, init), tail);
    }
  }

  /** What the controller reads off the pins for a line rewrite: the line's
      DDRAM address as an instruction, then the bytes of the text as data. */
  lemma LineWriteDecodes(s: Bus, addr: Byte, text: Bytes)
    ensures Decode(Latches(s, Encode(LineWrite(addr, text)))) == [Transfer(LcdCmd, addr)] + Chars(text)
  {
    EncodeRoundTrip(s, LineWrite(addr, text));
  }

  /** What the controller reads off the pins for Clear: the four line rewrites
      at lcdLine1, lcdLine2, lcdLine3 and lcdLine4, each of lcdWidth spaces. */
  lemma BlankingDecodes(s: Bus, line3: Byte, line4: Byte)
    ensures var ts, n, blank := Decode(Latches(s, Encode(Blanking(line3, line4)))), 1 + LcdWidth, Spaces(LcdWidth);
      && |ts| == 4 * n
      && ts[..n] == LineWrite(LcdLine1, blank)
      && ts[n..2 * n] == LineWrite(LcdLine2, blank)
      && ts[2 * n..3 * n] == LineWrite(line3, blank)
      && ts[3 * n..] == LineWrite(line4, blank)
  {
    EncodeRoundTrip(s, Blanking(line3, line4));
    var blank := Spaces(LcdWidth);
    Quarters(LineWrite(LcdLine1, blank), LineWrite(LcdLine2, blank), LineWrite(line3, blank), LineWrite(line4, blank), 1 + LcdWidth);
  }

  /** The four line rewrites of Clear, one after the other on the pins. */
  lemma BlankingEncodes(line3: Byte, line4: Byte)
    ensures var blank := Spaces(LcdWidth);
      Encode(Blanking(line3, line4))
        == Encode(LineWrite(LcdLine1, blank)) + Encode(LineWrite(LcdLine2, blank))
           + Encode(LineWrite(line3, blank)) + Encode(LineWrite(line4, blank))
  {
    var blank := Spaces(LcdWidth);
    var l1, l2, l3, l4 := LineWrite(LcdLine1, blank), LineWrite(LcdLine2, blank), LineWrite(line3, blank), LineWrite(line4, blank);
    EncodeAppend(l1 + l2 + l3, l4);
    EncodeAppend(l1 + l2, l3);
    EncodeAppend(l1, l2);
  }

  // Steps of the driver's loops, each stated on plain sequences.

  lemma NothingWritten(addrs: seq<Byte>)
    ensures Encode(LineWrites(addrs, [])) == []
  {}

  /** A single rewrite sends exactly that line's address and bytes. */
  lemma OneLineWritten(addrs: seq<Byte>, line: nat, text: Bytes)
    requires line < |addrs|
    ensures LineWrites(addrs, [Write(line, text)]) == LineWrite(addrs[line], text)
  {
    var ws, lw := [Write(line, text)], LineWrite(addrs[line], text);
    assert ws[..0] == [];
    assert [] + lw == lw;
  }

  /** One more writeByte after the pin events of `ts`. */
  lemma EncodeStep(start: seq<Event>, ts: seq<Transfer>, t: Transfer, before: seq<Event>, after: seq<Event>)
    requires before == start + Encode(ts)
    requires after == before + ByteFrame(t.value, t.data)
    ensures after == start + Encode(ts + [t])
  {
    EncodeSnoc(ts, t);
    Concat2(start, Encode(ts), ByteFrame(t.value, t.data));
  }

  lemma EncodeSingle(t: Transfer)
    ensures Encode([t]) == ByteFrame(t.value, t.data)
  {
    EncodeSnoc([], t);
    assert [] + [t] == [t];
  }

  /** The line rewrite of a prefix one byte longer. */
  lemma LineWriteStep(addr: Byte, text: Bytes, c: nat)
    requires c < |text|
    ensures LineWrite(addr, text[..c + 1]) == LineWrite(addr, text[..c]) + [Transfer(LcdChr, text[c])]
  {
    assert Chars(text[..c + 1]) == Chars(text[..c]) + [Transfer(LcdChr, text[c])];
  }

  /** One more line rewrite after those of `done`, on the pins. */
  lemma TraceStep(addrs: seq<Byte>, start: seq<Event>, done: seq<Write>, more: seq<Write>, before: seq<Event>, after: seq<Event>)
    requires before == start + Encode(LineWrites(addrs, done))
    requires after == before + Encode(LineWrites(addrs, more))
    ensures after == start + Encode(LineWrites(addrs, done + more))
  {
    LineWritesAppend(addrs, done, more);
    EncodeAppend(LineWrites(addrs, done), LineWrites(addrs, more));
    Concat2(start, Encode(LineWrites(addrs, done)), Encode(LineWrites(addrs, more)));
  }

  /** Display's requires for segment i of DisplayLines, from DisplayLines'
      requires: segments before i leave line i's cache entry as it was, so the
      address is needed exactly when the segment changes the line. */
  lemma SegmentReady(active: bool, lines: nat, width: nat, cache: seq<Bytes>, addrs: seq<Byte>, segs: seq<Bytes>, i: nat)
    requires active ==> lines <= |cache|
    requires i < |segs|
    requires active ==> forall k :: 0 <= k < |segs| && k < lines ==>
      && Fits(|segs[k]|, width)
      && (cache[k] != PadOrTruncate(segs[k], width) ==> k < |addrs|)
    ensures var c := DisplayAll(active, lines, width, cache, segs[..i]).cache;
      active && i < lines ==>
        && i < |c| && Fits(|segs[i]|, width)
        && (c[i] != PadOrTruncate(segs[i], width) ==> i < |addrs|)
  {
    if active && i < lines {
      LaterLineUntouched(active, lines, width, cache, segs[..i], i);
    }
  }

  class GPIO4bit {
    /** GPIO numbers of the six lines; only the left-out pin set-up reads them. */
    var RSPin: int
    var EPin: int
    var D4Pin: int
    var D5Pin: int
    var D6Pin: int
    var D7Pin: int

    /** Number of lines, their Set-DDRAM-address instructions, and the width. */
    var Lines: nat
    var LinesAddr: seq<Byte>
    var Width: nat

    /** The instructions lcdLine3 and lcdLine4 that Clear and Close use. */
    const Line3: Byte
    const Line4: Byte

    /** What each line was last rendered with. */
    var lastLines: seq<Bytes>
    var active: bool

    /** Every pin change and wait since the driver was created. */
    var trace: seq<Event>

    /** NewGPIO4bit: the default wiring, four lines at lcdLine1..lcdLine4,
        the default width, inactive. */
    constructor (lcdLine3: Byte, lcdLine4: Byte)
      ensures RSPin == 7 && EPin == 8 && D4Pin == 25 && D5Pin == 24 && D6Pin == 23 && D7Pin == 18
      ensures Lines == 4 && LinesAddr == [LcdLine1, LcdLine2, lcdLine3, lcdLine4] && Width == LcdWidth
      ensures Line3 == lcdLine3 && Line4 == lcdLine4
      ensures lastLines == [] && !active && trace == []
    {
      RSPin, EPin, D4Pin, D5Pin, D6Pin, D7Pin := 7, 8, 25, 24, 23, 18;
      Lines, Width := 4, LcdWidth;
      LinesAddr := [LcdLine1, LcdLine2, lcdLine3, lcdLine4];
      Line3, Line4 := lcdLine3, lcdLine4;
      lastLines, active, trace := [], false, [];
    }

    /** Active: whether the interface is open. */
    method Active() returns (a: bool)
      ensures a == active
    {
      a := active;
    }

    method SetLevel(p: Pin, high: bool)
      modifies this`trace
      ensures trace == old(trace) + [Drive(p, high)]
    {
      trace := trace + [Drive(p, high)];
    }

    method Wait(us: nat)
      modifies this`trace
      ensures trace == old(trace) + [Sleep(us)]
    {
      trace := trace + [Sleep(us)];
    }

    /** push4bits: D4..D7 from bits 0..3, then the enable strobe. */
    method Push4Bits(bits: Byte)
      modifies this`trace
      ensures trace == old(trace) + Strobe(bits)
    {
      SetLevel(D4, bits & 0x01 == 0x01);
      SetLevel(D5, bits & 0x02 == 0x02);
      SetLevel(D6, bits & 0x04 == 0x04);
      SetLevel(D7, bits & 0x08 == 0x08);
      SnocFour(old(trace), Drive(D4, bits & 0x01 == 0x01), Drive(D5, bits & 0x02 == 0x02),
               Drive(D6, bits & 0x04 == 0x04), Drive(D7, bits & 0x08 == 0x08));
      ghost var lines := trace;
      Wait(EPulse);
      SetLevel(E, true);
      Wait(EPulse);
      SetLevel(E, false);
      Wait(EPulse);
      Snoc5(lines, Sleep(EPulse), Drive(E, true), Sleep(EPulse), Drive(E, false), Sleep(EPulse));
    }

    /** writeByte: RS from the mode, the high nibble, the low nibble, eDelay. */
    method WriteByte(bits: Byte, characterMode: bool)
      modifies this`trace
      ensures trace == old(trace) + ByteFrame(bits, characterMode)
    {
      SetLevel(RS, characterMode);
      Push4Bits(bits >> 4);
      Push4Bits(bits);
      Wait(EDelay);
      Concat4(old(trace), [Drive(RS, characterMode)], Strobe(bits >> 4), Strobe(bits), [Sleep(EDelay)]);
    }

    /** write4Bits: RS from the mode, the low nibble only, eDelay. */
    method Write4Bits(bits: Byte, characterMode: bool)
      modifies this`trace
      ensures trace == old(trace) + NibbleFrame(bits, characterMode)
    {
      SetLevel(RS, characterMode);
      Push4Bits(bits);
      Wait(EDelay);
      Concat3(old(trace), [Drive(RS, characterMode)], Strobe(bits), [Sleep(EDelay)]);
    }

    /** writeByte once per transfer, in order. */
    method WriteAll(ts: seq<Transfer>)
      modifies this`trace
      ensures trace == old(trace) + Encode(ts)
    {
      var i := 0;
      while i < |ts|
        invariant 0 <= i <= |ts|
        invariant trace == old(trace) + Encode(ts[..i])
      {
        ghost var before := trace;
        WriteByte(ts[i].value, ts[i].data);
        EncodeStep(old(trace), ts[..i], ts[i], before, trace);
        assert ts[..i + 1] == ts[..i] + [ts[i]];
        i := i + 1;
      }
      assert ts[..i] == ts;
    }

    /** One write4Bits of the handshake and the wait after it. */
    method HandshakeNibble(bits: Byte, us: nat)
      modifies this`trace
      ensures trace == old(trace) + HandshakeStep(bits, us)
    {
      Write4Bits(bits, LcdCmd);
      Wait(us);
    }

    /** reset: the 4-bit initialisation handshake and the set-up instructions. */
    method ResetUnlocked()
      modifies this`trace
      ensures trace == old(trace) + InitSequence()
    {
      HandshakeNibble(0x3, 5000);
      HandshakeNibble(0x3, 120);
      HandshakeNibble(0x3, 120);
      HandshakeNibble(0x2, 120);
      Concat4(old(trace), HandshakeStep(0x3, 5000), HandshakeStep(0x3, 120), HandshakeStep(0x3, 120), HandshakeStep(0x2, 120));
      WriteAll(InitCommands());
      Wait(5000);
      Concat3(old(trace), Handshake(), Encode(InitCommands()), [Sleep(5000)]);
    }

    /** Reset: reset, whether or not the interface is open. */
    method Reset()
      modifies this`trace
      ensures trace == old(trace) + InitSequence()
    {
      ResetUnlocked();
    }

    /** Open: a no-op when already open; otherwise, when the GPIO layer opens
        (`transport` is None), a fresh cache of `Lines` empty lines, the reset
        sequence, and the interface is open. */
    method Open(transport: Option<Error>) returns (err: Option<Error>)
      modifies this`trace, this`lastLines, this`active
      ensures old(active) ==> err == None && unchanged(this)
      ensures !old(active) && transport.Some? ==> err == transport && unchanged(this)
      ensures !old(active) && transport.None? ==>
        && err == None
        && active
        && lastLines == seq(Lines, _ => [])
        && trace == old(trace) + InitSequence()
    {
      if active {
        return None;
      }
      if transport.Some? {
        return transport;
      }
      lastLines := seq(Lines, _ => []);
      ResetUnlocked();
      active := true;
      err := None;
    }

    /** One line address followed by lcdWidth spaces. */
    method WriteBlankLine(addr: Byte)
      modifies this`trace
      ensures trace == old(trace) + Encode(LineWrite(addr, Spaces(LcdWidth)))
    {
      WriteLine(addr, Spaces(LcdWidth), LcdWidth);
      assert Spaces(LcdWidth)[..LcdWidth] == Spaces(LcdWidth);
    }

    /** An address instruction, then the first `count` bytes of `text` as data. */
    method WriteLine(addr: Byte, text: Bytes, count: nat)
      requires count <= |text|
      modifies this`trace
      ensures trace == old(trace) + Encode(LineWrite(addr, text[..count]))
    {
      WriteByte(addr, LcdCmd);
      EncodeSingle(Command(addr));
      assert LineWrite(addr, text[..0]) == [Command(addr)];
      var c := 0;
      while c < count
        invariant 0 <= c <= count
        invariant trace == old(trace) + Encode(LineWrite(addr, text[..c]))
      {
        ghost var before := trace;
        WriteByte(text[c], LcdChr);
        EncodeStep(old(trace), LineWrite(addr, text[..c]), Transfer(LcdChr, text[c]), before, trace);
        LineWriteStep(addr, text, c);
        c := c + 1;
      }
    }

    method WriteBlanking()
      modifies this`trace
      ensures trace == old(trace) + Encode(Blanking(Line3, Line4))
    {
      var blank := Spaces(LcdWidth);
      WriteBlankLine(LcdLine1);
      WriteBlankLine(LcdLine2);
      WriteBlankLine(Line3);
      WriteBlankLine(Line4);
      BlankingEncodes(Line3, Line4);
      Concat4(old(trace), Encode(LineWrite(LcdLine1, blank)), Encode(LineWrite(LcdLine2, blank)),
              Encode(LineWrite(Line3, blank)), Encode(LineWrite(Line4, blank)));
    }

    /** Clear: nothing on a closed interface; otherwise the four lines are
        overwritten with spaces. The cache is left as it was. */
    method Clear()
      modifies this`trace
      ensures trace == old(trace) + (if old(active) then Encode(Blanking(Line3, Line4)) else [])
    {
      if !active {
        return;
      }
      WriteBlanking();
    }

    /** Close: nothing on a closed interface; otherwise the four lines are
        blanked, Clear display (0x01), 5 ms, the instruction 0x0C, the six lines
        driven low, and the interface is closed. The cache is left as it was. */
    method Close()
      modifies this`trace, this`active
      ensures !old(active) ==> unchanged(this)
      ensures old(active) ==>
        && !active
        && trace == old(trace) + Encode(Blanking(Line3, Line4) + [Command(0x01)])
                     + [Sleep(5000)] + Encode([Command(0x0C)]) + AllLow()
    {
      if !active {
        return;
      }
      WriteBlanking();
      ghost var blanked := trace;
      WriteByte(0x01, LcdCmd);
      EncodeStep(old(trace), Blanking(Line3, Line4), Command(0x01), blanked, trace);
      Wait(5000);
      WriteByte(0x0C, LcdCmd);
      EncodeSingle(Command(0x0C));
      ghost var settled := trace;
      SetLevel(RS, false);
      SetLevel(E, false);
      SetLevel(D4, false);
      SetLevel(D5, false);
      SetLevel(D6, false);
      SetLevel(D7, false);
      Snoc6(settled, Drive(RS, false), Drive(E, false), Drive(D4, false), Drive(D5, false), Drive(D6, false), Drive(D7, false));
      active := false;
    }

    /** Display: the redraw decision of `RedrawCache.DisplayStep`, and for a
        rewrite the line's address then the fitted text on the pins. The text is
        fitted as written (`Text.Normalize`); the source panics where it does not
        fit, where the index is outside the cache, and, only when the line is
        rewritten, where it is outside the address table. */
    method Display(line: nat, text: Bytes)
      requires active && line < Lines ==>
        && line < |lastLines| && Fits(|text|, Width)
        && (lastLines[line] != PadOrTruncate(text, Width) ==> line < |LinesAddr|)
      modifies this`trace, this`lastLines
      ensures var r := DisplayStep(old(active), Lines, Width, old(lastLines), line, text);
        && lastLines == r.cache
        && trace == old(trace) + Encode(LineWrites(LinesAddr, r.writes))
    {
      ghost var r := DisplayStep(active, Lines, Width, lastLines, line, text);
      if !active || line >= Lines {
        DisplayStepSkips(active, Lines, Width, lastLines, line, text);
        NothingWritten(LinesAddr);
        return;
      }
      var fitted := Normalize(text, Width);
      if lastLines[line] == fitted {
        DisplayStepSkips(active, Lines, Width, lastLines, line, text);
        NothingWritten(LinesAddr);
        return;
      }
      DisplayStepRewrites(Lines, Width, lastLines, line, text);
      Rewrite(line, fitted);
    }

    /** The rewrite branch of Display: cache the fitted text, then send the
        line's address and every column of the text. */
    method Rewrite(line: nat, fitted: Bytes)
      requires line < |lastLines| && line < |LinesAddr|
      modifies this`trace, this`lastLines
      ensures lastLines == old(lastLines)[line := fitted]
      ensures trace == old(trace) + Encode(LineWrites(LinesAddr, [Write(line, fitted)]))
    {
      lastLines := lastLines[line := fitted];
      WriteLine(LinesAddr[line], fitted, |fitted|);
      assert fitted[..|fitted|] == fitted;
      OneLineWritten(LinesAddr, line, fitted);
    }

    /** DisplayLines: Display(i, segment i) for the segments of `msg` between
        line breaks, in order. */
    method DisplayLines(msg: Bytes)
      requires active ==> Lines <= |lastLines|
      requires active ==> forall i :: 0 <= i < |Split(msg, Newline)| && i < Lines ==>
        && Fits(|Split(msg, Newline)[i]|, Width)
        && (lastLines[i] != PadOrTruncate(Split(msg, Newline)[i], Width) ==> i < |LinesAddr|)
      modifies this`trace, this`lastLines
      ensures var r := DisplayAll(old(active), Lines, Width, old(lastLines), Split(msg, Newline));
        && lastLines == r.cache
        && trace == old(trace) + Encode(LineWrites(LinesAddr, r.writes))
    {
      var segs := Split(msg, Newline);
      var i := 0;
      while i < |segs|
        invariant 0 <= i <= |segs|
        invariant var r := DisplayAll(active, Lines, Width, old(lastLines), segs[..i]);
          && lastLines == r.cache
          && trace == old(trace) + Encode(LineWrites(LinesAddr, r.writes))
      {
        ghost var prev := DisplayAll(active, Lines, Width, old(lastLines), segs[..i]);
        ghost var step := DisplayStep(active, Lines, Width, lastLines, i, segs[i]);
        ghost var before := trace;
        DisplayAllStep(active, Lines, Width, old(lastLines), segs, i);
        SegmentReady(active, Lines, Width, old(lastLines), LinesAddr, segs, i);
        Display(i, segs[i]);
        TraceStep(LinesAddr, old(trace), prev.writes, step.writes, before, trace);
        i := i + 1;
      }
      assert segs[..i] == segs;
    }

    /** SetChar: a glyph definition that is not 8 bytes long is refused before
        any write (a panic in the source); otherwise the Set-CGRAM-address
        instruction for slot `pos`, then the 8 rows as data. */
    method SetChar(pos: Byte, def: Bytes) returns (err: Option<Error>)
      modifies this`trace
      ensures |def| != 8 ==> err == Some(InvalidGlyph(|def|)) && trace == old(trace)
      ensures |def| == 8 ==> err == None && trace == old(trace) + Encode(LineWrite(CgramCommand(pos), def))
    {
      if |def| != 8 {
        return Some(InvalidGlyph(|def|));
      }
      WriteLine(0x40 + pos * 8, def, |def|);
      assert def[..|def|] == def;
      err := None;
    }

    /** ToggleBacklight: the GPIO wiring has no backlight line; nothing happens. */
    method ToggleBacklight()
      ensures unchanged(this)
    {
    }
  }
}
