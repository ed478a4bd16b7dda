/** The I2C4bit driver (i2c_conn.go): an HD44780 behind a PCF8574 I2C
    expander, driven through a foreign controller driver. That driver's calls
    and the closing of the bus are recorded, in order, in `calls`; how the
    driver frames them on the bus is not part of this model. Text is written
    rune by rune, as Go's `range` over a string decodes it (`Utf8`). */
module I2c {
  import opened Consts
  import opened Text
  import opened RedrawCache
  import opened Seqs
  import opened Utf8

  /** A call into the controller driver, or the closing of the I2C bus. */
  datatype Call =
    | Clear
    | SetCursor(col: nat, row: nat)
    | WriteChar(b: Byte)
    | BacklightOn
    | BacklightOff
    | CloseBus

  /** One WriteChar per byte of `text`, in order: `text` is what is written,
      one byte per rune. */
  function Typed(text: Bytes): (r: seq<Call>)
    ensures |r| == |text|
    decreases |text|
  {
    if text == [] then [] else Typed(text[..|text| - 1]) + [WriteChar(text[|text| - 1])]
  }

  /** The calls of one line rewrite: the cursor to the start of the line, then
      `byte(c)` of each rune of the text. */
  function LineCalls(w: Write): seq<Call> {
    [SetCursor(0, w.line)] + Typed(Glyphs(w.text))
  }

  /** The calls of a sequence of line rewrites, in order. */
  function Sends(writes: seq<Write>): seq<Call>
    decreases |writes|
  {
    if writes == [] then [] else Sends(writes[..|writes| - 1]) + LineCalls(writes[|writes| - 1])
  }

  /** The WriteChar bytes at the front of `calls`, up to the first other call. */
  function Leading(calls: seq<Call>): (r: Bytes)
    ensures |r| <= |calls|
    decreases |calls|
  {
    if calls != [] && calls[0].WriteChar? then [calls[0].b] + Leading(calls[1..]) else []
  }

  /** The line rewrites a call sequence performs: each SetCursor(0, row) starts
      a rewrite of `row` with the characters written after it. */
  function Rewrites(calls: seq<Call>): seq<Write>
    decreases |calls|
  {
    if calls == [] then []
    else if calls[0].SetCursor? && calls[0].col == 0 then
      var text := Leading(calls[1..]);
      [Write(calls[0].row, text)] + Rewrites(calls[1 + |text|..])
    else Rewrites(calls[1..])
  }

  /** The rewrites as the display receives them: each text replaced by the
      bytes its runes are written as. */
  function Shown(ws: seq<Write>): (r: seq<Write>)
    ensures |r| == |ws|
    decreases |ws|
  {
    if ws == [] then [] else [Write(ws[0].line, Glyphs(ws[0].text))] + Shown(ws[1..])
  }

  /** ASCII rewrites reach the display unchanged. */
  lemma {:induction false} ShownAscii(ws: seq<Write>)
    requires forall i :: 0 <= i < |ws| ==> Ascii(ws[i].text)
    ensures Shown(ws) == ws
    decreases |ws|
  {
    if ws != [] {
      GlyphsAscii(ws[0].text);
      ShownAscii(ws[1..]);
      assert ws == [ws[0]] + ws[1..];
    }
  }

  /** Each byte becomes its own WriteChar, at its own position. */
  lemma {:induction false} TypedBytes(text: Bytes)
    ensures forall i :: 0 <= i < |text| ==> Typed(text)[i] == WriteChar(text[i])
    decreases |text|
  {
    if text != [] {
      TypedBytes(text[..|text| - 1]);
    }
  }

  /** One more byte is one more WriteChar. */
  lemma TypedStep(start: seq<Call>, text: Bytes, b: Byte, before: seq<Call>)
    requires before == start + Typed(text)
    ensures before + [WriteChar(b)] == start + Typed(text + [b])
  {
    assert (text + [b])[..|text|] == text;
    Concat2(start, Typed(text), [WriteChar(b)]);
  }

  lemma {:induction false} TypedAppend(a: Bytes, b: Bytes)
    ensures Typed(a + b) == Typed(a) + Typed(b)
    decreases |b|
  {
    if b == [] {
      assert a + b == a;
    } else {
      var init := b[..|b| - 1];
      assert (a + b)[..|a + b| - 1] == a + init;
      TypedAppend(a, init);
    }
  }

  /** Typed text read back up to the next cursor move is the text itself. */
  lemma {:induction false} LeadingTyped(text: Bytes, rest: seq<Call>)
    requires rest == [] || rest[0].SetCursor?
    ensures Leading(Typed(text) + rest) == text
    decreases |text|
  {
    if text == [] {
      assert Typed(text) + rest == rest;
    } else {
      var tail := text[1..];
      assert text == [text[0]] + tail;
      TypedAppend([text[0]], tail);
      assert Typed([text[0]]) == [WriteChar(text[0])] by {
        assert [text[0]][..0] == [];
      }
      assert Typed(text) + rest == [WriteChar(text[0])] + (Typed(tail) + rest);
      LeadingTyped(tail, rest);
    }
  }

  lemma {:induction false} SendsAppend(a: seq<Write>, b: seq<Write>)
    ensures Sends(a + b) == Sends(a) + Sends(b)
    decreases |b|
  {
    if b == [] {
      assert a + b == a;
    } else {
      var init := b[..|b| - 1];
      assert (a + b)[..|a + b| - 1] == a + init;
      SendsAppend(a, init);
      Concat2(Sends(a), Sends(init), LineCalls(b[|b| - 1]));
    }
  }

  /** More rewrites after those of `done`, as calls. */
  lemma CallsStep(start: seq<Call>, done: seq<Write>, more: seq<Write>, before: seq<Call>, after: seq<Call>)
    requires before == start + Sends(done)
    requires after == before + Sends(more)
    ensures after == start + Sends(done + more)
  {
    SendsAppend(done, more);
    Concat2(start, Sends(done), Sends(more));
  }

  /** Sends taken apart from the front: the first rewrite, then the others. */
  lemma SendsCons(w: Write, ws: seq<Write>)
    ensures Sends([w] + ws) == LineCalls(w) + Sends(ws)
  {
    SendsAppend([w], ws);
    assert [w][..0] == [];
  }

  /** Every rewrite's calls begin with a cursor move. */
  lemma SendsStartsWithCursor(ws: seq<Write>)
    ensures Sends(ws) == [] || Sends(ws)[0].SetCursor?
  {
    if ws != [] {
      SendsCons(ws[0], ws[1..]);
      assert ws == [ws[0]] + ws[1..];
    }
  }

  /** Rewrites reads a cursor move to column 0 as the start of one rewrite of
      that row, whose text is the bytes written before the next other call. */
  lemma RewritesAtCursor(calls: seq<Call>, row: nat, text: Bytes, rest: seq<Call>)
    requires calls != [] && calls[0] == SetCursor(0, row)
    requires Leading(calls[1..]) == text
    requires 1 + |text| <= |calls| && calls[1 + |text|..] == rest
    ensures Rewrites(calls) == [Write(row, text)] + Rewrites(rest)
  {}

  /** A cursor move to column 0 followed by written bytes reads back as one
      rewrite of that row, up to the next cursor move. */
  lemma RewritesOfLine(row: nat, text: Bytes, rest: seq<Call>)
    requires rest == [] || rest[0].SetCursor?
    ensures Rewrites([SetCursor(0, row)] + Typed(text) + rest) == [Write(row, text)] + Rewrites(rest)
  {
    var typed := Typed(text);
    var calls := [SetCursor(0, row)] + typed + rest;
    assert calls[1..] == typed + rest;
    LeadingTyped(text, rest);
    assert calls[1 + |text|..] == rest;
    RewritesAtCursor(calls, row, text, rest);
  }

  /** The calls of a sequence of rewrites identify the rewrites: which line,
      and exactly which bytes, one per rune, in which order. */
  lemma {:induction false} RewritesSends(ws: seq<Write>)
    ensures Rewrites(Sends(ws)) == Shown(ws)
    decreases |ws|
  {
    if ws != [] {
      var w, rest := ws[0], ws[1..];
      var g := Glyphs(w.text);
      assert ws == [w] + rest;
      SendsCons(w, rest);
      SendsStartsWithCursor(rest);
      RewritesOfLine(w.line, g, Sends(rest));
      RewritesSends(rest);
    }
  }

  /** For ASCII text the call encoding round-trips exactly. */
  lemma RewritesSendsAscii(ws: seq<Write>)
    requires forall i :: 0 <= i < |ws| ==> Ascii(ws[i].text)
    ensures Rewrites(Sends(ws)) == ws
  {
    RewritesSends(ws);
    ShownAscii(ws);
  }

  /** The backlight flag after ToggleBacklight. */
  function Toggled(active: bool, backlight: bool): (r: bool)
    ensures active ==> r != backlight
    ensures !active ==> r == backlight
  {
    if active then !backlight else backlight
  }

  /** Toggling twice restores the flag. */
  lemma ToggleTwice(active: bool, backlight: bool)
    ensures Toggled(active, Toggled(active, backlight)) == backlight
  {}

  class I2C4bit {
    /** Number of lines and their width. */
    var Lines: nat
    var Width: nat

    /** The expander's bus address. */
    const addr: Byte

    var lastLines: seq<Bytes>
    var active: bool

    /** Whether a controller driver exists: the source's `hd` is not nil. */
    var hasDriver: bool
    var backlight: bool

    /** Every call into the controller driver, in order. */
    var calls: seq<Call>

    /** NewI2C4bit: two lines of lcdWidth, inactive, backlight off. */
    constructor (addr: Byte)
      ensures Lines == 2 && Width == LcdWidth && this.addr == addr
      ensures lastLines == [] && !active && !hasDriver && !backlight && calls == []
    {
      Lines, Width, this.addr := 2, LcdWidth, addr;
      lastLines, active, hasDriver, backlight, calls := [], false, false, false, [];
    }

    /** Open: `connect` is the outcome of constructing the controller driver.
        An open device is left alone; a failed construction is reported and the
        device stays inactive; otherwise a fresh cache, a Clear, the backlight on. */
    method Open(connect: Option<Error>) returns (err: Option<Error>)
      modifies this`lastLines, this`active, this`hasDriver, this`backlight, this`calls
      ensures old(active) ==> err == None && unchanged(this)
      ensures !old(active) && connect.Some? ==>
        && err == connect && !active && !hasDriver
        && lastLines == old(lastLines) && backlight == old(backlight) && calls == old(calls)
      ensures !old(active) && connect.None? ==>
        && err == None && active && hasDriver && backlight
        && lastLines == seq(Lines, _ => []) && calls == old(calls) + [Clear, BacklightOn]
    {
      if active {
        return None;
      }
      if connect.Some? {
        hasDriver := false;
        return connect;
      }
      hasDriver := true;
      lastLines := seq(Lines, _ => []);
      ResetUnlocked();
      calls := calls + [BacklightOn];
      backlight := true;
      active := true;
      err := None;
    }

    /** Active: whether the interface is open. */
    method Active() returns (a: bool)
      ensures a == active
    {
      a := active;
    }

    /** Reset: clears the display through the driver; the cache is kept. */
    method Reset()
      requires hasDriver
      modifies this`calls
      ensures calls == old(calls) + [Clear]
    {
      ResetUnlocked();
    }

    /** reset(): the unlocked Reset used by Open. */
    method ResetUnlocked()
      requires hasDriver
      modifies this`calls
      ensures calls == old(calls) + [Clear]
    {
      calls := calls + [Clear];
    }

    /** Close: on an open device, backlight off, Clear, close the bus. */
    method Close()
      modifies this`backlight, this`calls, this`active
      ensures !old(active) ==> unchanged(this)
      ensures old(active) ==> !active && !backlight && calls == old(calls) + [BacklightOff, Clear, CloseBus]
    {
      if !active {
        return;
      }
      calls := calls + [BacklightOff];
      backlight := false;
      calls := calls + [Clear];
      calls := calls + [CloseBus];
      active := false;
    }

    /** Display: the redraw decision of `RedrawCache.DisplayStep`, and for a
        rewrite the cursor to column 0 of the line, then the fitted text. */
    method Display(line: nat, text: Bytes)
      requires active && line < Lines ==> line < |lastLines| && Fits(|text|, Width)
      modifies this`calls, this`lastLines
      ensures var r := DisplayStep(old(active), Lines, Width, old(lastLines), line, text);
        && lastLines == r.cache
        && calls == old(calls) + Sends(r.writes)
    {
      ghost var r := DisplayStep(active, Lines, Width, lastLines, line, text);
      if !active || line >= Lines {
        DisplayStepSkips(active, Lines, Width, lastLines, line, text);
        return;
      }
      var fitted := Normalize(text, Width);
      if lastLines[line] == fitted {
        DisplayStepSkips(active, Lines, Width, lastLines, line, text);
        return;
      }
      DisplayStepRewrites(Lines, Width, lastLines, line, text);
      Rewrite(line, fitted);
    }

    /** The rewrite branch of Display: cache the fitted text, move the cursor,
        then write the text. */
    method Rewrite(line: nat, fitted: Bytes)
      requires line < |lastLines|
      modifies this`calls, this`lastLines
      ensures lastLines == old(lastLines)[line := fitted]
      ensures calls == old(calls) + Sends([Write(line, fitted)])
    {
      lastLines := lastLines[line := fitted];
      calls := calls + [SetCursor(0, line)];
      WriteRunes(fitted);
      assert Sends([Write(line, fitted)]) == LineCalls(Write(line, fitted)) by {
        assert [Write(line, fitted)][..0] == [];
      }
    }

    /** The `range` loop of Display: decode `text` rune by rune and write
        `byte(c)` of each. */
    method WriteRunes(text: Bytes)
      modifies this`calls
      ensures calls == old(calls) + Typed(Glyphs(text))
    {
      var rest := text;
      ghost var shown: Bytes := [];
      while rest != []
        invariant shown + Glyphs(rest) == Glyphs(text)
        invariant calls == old(calls) + Typed(shown)
        decreases |rest|
      {
        var g := Glyph(rest);
        GlyphsNext(Glyphs(text), rest, shown);
        TypedStep(old(calls), shown, g, calls);
        calls := calls + [WriteChar(g)];
        shown := shown + [g];
        rest := rest[RuneSize(rest)..];
      }
      assert shown + [] == shown;
    }

    /** DisplayLines: Display(i, segment i) for the segments of `msg` between
        line breaks, in order. */
    method DisplayLines(msg: Bytes)
      requires active ==> Lines <= |lastLines|
      requires active ==> forall i :: 0 <= i < |Split(msg, Newline)| && i < Lines ==> Fits(|Split(msg, Newline)[i]|, Width)
      modifies this`calls, this`lastLines
      ensures var r := DisplayAll(old(active), Lines, Width, old(lastLines), Split(msg, Newline));
        && lastLines == r.cache
        && calls == old(calls) + Sends(r.writes)
    {
      var segs := Split(msg, Newline);
      var i := 0;
      while i < |segs|
        invariant 0 <= i <= |segs|
        invariant var r := DisplayAll(active, Lines, Width, old(lastLines), segs[..i]);
          && lastLines == r.cache
          && calls == old(calls) + Sends(r.writes)
      {
        ghost var prev := DisplayAll(active, Lines, Width, old(lastLines), segs[..i]);
        ghost var step := DisplayStep(active, Lines, Width, lastLines, i, segs[i]);
        ghost var before := calls;
        DisplayAllStep(active, Lines, Width, old(lastLines), segs, i);
        Display(i, segs[i]);
        CallsStep(old(calls), prev.writes, step.writes, before, calls);
        i := i + 1;
      }
      assert segs[..i] == segs;
    }

    /** ToggleBacklight: on an open device, switch the backlight the other way. */
    method ToggleBacklight()
      modifies this`backlight, this`calls
      ensures backlight == Toggled(old(active), old(backlight))
      ensures calls == old(calls) + if !old(active) then [] else if old(backlight) then [BacklightOff] else [BacklightOn]
    {
      if !active {
        return;
      }
      if backlight {
        calls := calls + [BacklightOff];
      } else {
        calls := calls + [BacklightOn];
      }
      backlight := !backlight;
    }
  }
}
