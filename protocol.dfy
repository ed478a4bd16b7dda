/** The HD44780 4-bit parallel protocol as the GPIO driver produces it
    (gpio_conn.go:102-120, 191-249): the pin events of one nibble, one byte and
    the power-on initialisation, and a decoder that reads the transfers back
    from the pins the way the controller does. */
module Protocol {
  import opened Consts
  import opened Text
  import opened Seqs

  /** The six LCD lines the GPIO driver drives. */
  datatype Pin = RS | E | D4 | D5 | D6 | D7

  /** One observable step on the LCD's pins: a line driven to a level, or a wait. */
  datatype Event = Drive(pin: Pin, high: bool) | Sleep(us: nat)

  /** The first half of push4bits(bits): bits 0..3 of `bits` on D4..D7. */
  function DataLines(bits: Byte): seq<Event> {
    [ Drive(D4, bits & 0x01 == 0x01), Drive(D5, bits & 0x02 == 0x02),
      Drive(D6, bits & 0x04 == 0x04), Drive(D7, bits & 0x08 == 0x08) ]
  }

  /** The second half of push4bits: the enable strobe, with a wait before the
      rising edge, while E is high and after the falling edge. */
  function Pulse(): seq<Event> {
    [Sleep(EPulse), Drive(E, true), Sleep(EPulse), Drive(E, false), Sleep(EPulse)]
  }

  /** push4bits(bits). */
  function Strobe(bits: Byte): seq<Event> {
    DataLines(bits) + Pulse()
  }

  /** write4Bits(bits, characterMode): only the low nibble, then the settle wait. */
  function NibbleFrame(bits: Byte, characterMode: bool): seq<Event> {
    [Drive(RS, characterMode)] + Strobe(bits) + [Sleep(EDelay)]
  }

  /** writeByte(bits, characterMode): high nibble, low nibble, then the settle wait. */
  function ByteFrame(bits: Byte, characterMode: bool): seq<Event> {
    [Drive(RS, characterMode)] + Strobe(bits >> 4) + Strobe(bits) + [Sleep(EDelay)]
  }

  /** One byte as the controller receives it: data (RS high) or instruction. */
  datatype Transfer = Transfer(data: bool, value: Byte)

  function Command(b: Byte): Transfer {
    Transfer(LcdCmd, b)
  }

  /** The bytes of `bs` as character-mode transfers, in order. */
  function Chars(bs: Bytes): (r: seq<Transfer>)
    ensures |r| == |bs|
  {
    seq(|bs|, i requires 0 <= i < |bs| => Transfer(LcdChr, bs[i]))
  }

  /** The pin events of writeByte called once per transfer, in order. */
  function Encode(ts: seq<Transfer>): seq<Event>
    decreases |ts|
  {
    if ts == [] then [] else Encode(ts[..|ts| - 1]) + ByteFrame(ts[|ts| - 1].value, ts[|ts| - 1].data)
  }

  /** One write4Bits of the power-on handshake followed by its wait. */
  function HandshakeStep(bits: Byte, us: nat): seq<Event> {
    NibbleFrame(bits, LcdCmd) + [Sleep(us)]
  }

  /** The HD44780U's "initializing by instruction" for a 4-bit interface: the
      nibble 3 three times, then 2, which switches the controller to 4 bits. */
  function Handshake(): seq<Event> {
    HandshakeStep(0x3, 5000) + HandshakeStep(0x3, 120) + HandshakeStep(0x3, 120) + HandshakeStep(0x2, 120)
  }

  /** Function set 0x28 (4 bits, 2 lines, 5x8 dots), display control 0x0C
      (display on, cursor off, blink off), entry mode 0x06 (increment, no
      shift), clear display 0x01. */
  function InitCommands(): seq<Transfer> {
    [Command(0x28), Command(0x0C), Command(0x06), Command(0x01)]
  }

  /** reset(): the handshake, the four set-up instructions, then 5 ms. */
  function InitSequence(): seq<Event> {
    Handshake() + Encode(InitCommands()) + [Sleep(5000)]
  }

  // ----------------------------------------------------------------------------
  // Reading the pins back, as the controller does.

  /** The levels of the six lines. */
  datatype Bus = Bus(rs: bool, e: bool, d4: bool, d5: bool, d6: bool, d7: bool)

  function Step(s: Bus, ev: Event): Bus {
    match ev
    case Sleep(_) => s
    case Drive(p, h) =>
      match p
      case RS => s.(rs := h)
      case E => s.(e := h)
      case D4 => s.(d4 := h)
      case D5 => s.(d5 := h)
      case D6 => s.(d6 := h)
      case D7 => s.(d7 := h)
  }

  /** The nibble on D4 (bit 0) .. D7 (bit 3). */
  function DataNibble(s: Bus): Byte {
    (if s.d4 then 0x01 else 0) | (if s.d5 then 0x02 else 0) | (if s.d6 then 0x04 else 0) | (if s.d7 then 0x08 else 0)
  }

  /** A nibble as latched by the controller, with the register-select level. */
  datatype Latch = Latch(data: bool, nibble: Byte)

  /** What an observer of the pins accumulates along a trace: the current
      levels, the nibbles latched so far (one at every falling edge of E, read
      from RS and D4..D7 at that edge), whether RS and the data lines stayed put
      whenever E was high, and the time waited so far in microseconds. */
  datatype Watch = Watch(bus: Bus, latched: seq<Latch>, held: bool, waited: nat)

  function Observe(w: Watch, ev: Event): Watch {
    var s := w.bus;
    Watch(Step(s, ev),
          w.latched + (if ev == Drive(E, false) && s.e then [Latch(s.rs, DataNibble(s))] else []),
          w.held && (s.e ==> ev.Sleep? || ev.pin == E),
          w.waited + (if ev.Sleep? then ev.us else 0))
  }

  function Run(w: Watch, t: seq<Event>): Watch
    decreases |t|
  {
    if t == [] then w else Run(Observe(w, t[0]), t[1..])
  }

  /** An observer that starts watching when the lines are at levels `s`. */
  function Watching(s: Bus): Watch {
    Watch(s, [], true, 0)
  }

  /** The nibbles the controller latches during trace `t` from levels `s`. */
  function Latches(s: Bus, t: seq<Event>): seq<Latch> {
    Run(Watching(s), t).latched
  }

  /** 4-bit mode: consecutive latched nibbles, high nibble first, form one transfer. */
  function Decode(ls: seq<Latch>): seq<Transfer>
    decreases |ls|
  {
    if |ls| < 2 then [] else [Transfer(ls[0].data, (ls[0].nibble << 4) | ls[1].nibble)] + Decode(ls[2..])
  }

  /** The latches the controller sees for a sequence of byte writes: two per byte. */
  function Nibbles(ts: seq<Transfer>): (r: seq<Latch>)
    ensures |r| == 2 * |ts|
    decreases |ts|
  {
    if ts == [] then []
    else
      var t := ts[|ts| - 1];
      Nibbles(ts[..|ts| - 1]) + [Latch(t.data, t.value >> 4), Latch(t.data, t.value & 0x0F)]
  }

  /** The levels after push4bits(bits): the nibble on D4..D7 and E low. */
  function Strobed(s: Bus, bits: Byte): Bus {
    s.(e := false, d4 := bits & 0x01 == 0x01, d5 := bits & 0x02 == 0x02,
       d6 := bits & 0x04 == 0x04, d7 := bits & 0x08 == 0x08)
  }

  // ----------------------------------------------------------------------------
  // Properties

  /** Watching a concatenation is watching one part, then the other. */
  lemma {:induction false} RunAppend(w: Watch, a: seq<Event>, b: seq<Event>)
    ensures Run(w, a + b) == Run(Run(w, a), b)
    decreases |a|
  {
    if a == [] {
      assert a + b == b;
    } else {
      assert (a + b)[1..] == a[1..] + b;
      RunAppend(Observe(w, a[0]), a[1..], b);
    }
  }

  lemma RunCons(w: Watch, ev: Event, t: seq<Event>)
    ensures Run(w, [ev] + t) == Run(Observe(w, ev), t)
  {
    assert ([ev] + t)[1..] == t;
  }

  lemma RunSingle(w: Watch, ev: Event)
    ensures Run(w, [ev]) == Observe(w, ev)
  {
    assert [ev][1..] == [];
  }

  /** Setting the data lines changes D4..D7 only; it breaks the hold exactly
      when E is high. */
  lemma DataLinesRun(w: Watch, bits: Byte)
    ensures Run(w, DataLines(bits))
      == w.(bus := w.bus.(d4 := bits & 0x01 == 0x01, d5 := bits & 0x02 == 0x02,
                          d6 := bits & 0x04 == 0x04, d7 := bits & 0x08 == 0x08),
            held := w.held && !w.bus.e)
  {
    var t := DataLines(bits);
    var w1 := Observe(w, t[0]);
    var w2 := Observe(w1, t[1]);
    var w3 := Observe(w2, t[2]);
    assert t == [t[0]] + ([t[1]] + ([t[2]] + [t[3]]));
    RunCons(w, t[0], [t[1]] + ([t[2]] + [t[3]]));
    RunCons(w1, t[1], [t[2]] + [t[3]]);
    RunCons(w2, t[2], [t[3]]);
    RunSingle(w3, t[3]);
  }

  /** The enable strobe latches the data lines with the RS level, ends with E low,
      keeps the hold, and waits 3 times EPulse. */
  lemma PulseRun(w: Watch)
    ensures Run(w, Pulse())
      == w.(bus := w.bus.(e := false), latched := w.latched + [Latch(w.bus.rs, DataNibble(w.bus))],
            waited := w.waited + 3 * EPulse)
  {
    var t := Pulse();
    var w1 := Observe(w, t[0]);
    var w2 := Observe(w1, t[1]);
    var w3 := Observe(w2, t[2]);
    var w4 := Observe(w3, t[3]);
    assert t == [t[0]] + ([t[1]] + ([t[2]] + ([t[3]] + [t[4]])));
    RunCons(w, t[0], [t[1]] + ([t[2]] + ([t[3]] + [t[4]])));
    RunCons(w1, t[1], [t[2]] + ([t[3]] + [t[4]]));
    RunCons(w2, t[2], [t[3]] + [t[4]]);
    RunCons(w3, t[3], [t[4]]);
    RunSingle(w4, t[4]);
  }

  /** D4..D7 carry exactly bits 0..3 of `bits`. */
  lemma DataNibbleOfBits(s: Bus, bits: Byte)
    ensures DataNibble(s.(d4 := bits & 0x01 == 0x01, d5 := bits & 0x02 == 0x02,
                          d6 := bits & 0x04 == 0x04, d7 := bits & 0x08 == 0x08)) == bits & 0x0F
  {}

  /** push4bits(bits): the controller latches bits 0..3 of `bits` (bits 4..7 are
      ignored) with the current RS level, E ends low, the lines are held while E
      is high, and the strobe waits 3 times EPulse. */
  lemma StrobeRun(w: Watch, bits: Byte)
    ensures Run(w, Strobe(bits))
      == Watch(Strobed(w.bus, bits), w.latched + [Latch(w.bus.rs, bits & 0x0F)], w.held && !w.bus.e, w.waited + 3 * EPulse)
  {
    RunAppend(w, DataLines(bits), Pulse());
    DataLinesRun(w, bits);
    PulseRun(Run(w, DataLines(bits)));
    DataNibbleOfBits(w.bus, bits);
  }

  /** push4bits(bits) followed by the settle wait. */
  lemma SettledStrobeRun(w: Watch, bits: Byte)
    ensures Run(w, Strobe(bits) + [Sleep(EDelay)])
      == Watch(Strobed(w.bus, bits), w.latched + [Latch(w.bus.rs, bits & 0x0F)], w.held && !w.bus.e, w.waited + 3 * EPulse + EDelay)
  {
    RunAppend(w, Strobe(bits), [Sleep(EDelay)]);
    StrobeRun(w, bits);
    RunSingle(Run(w, Strobe(bits)), Sleep(EDelay));
  }

  /** write4Bits(bits, mode): RS set to `mode`, one nibble latched, then EDelay. */
  lemma NibbleFrameRun(w: Watch, bits: Byte, characterMode: bool)
    ensures Run(w, NibbleFrame(bits, characterMode))
      == Watch(Strobed(w.bus.(rs := characterMode), bits), w.latched + [Latch(characterMode, bits & 0x0F)],
               w.held && !w.bus.e, w.waited + 3 * EPulse + EDelay)
  {
    var ev := Drive(RS, characterMode);
    assert NibbleFrame(bits, characterMode) == [ev] + (Strobe(bits) + [Sleep(EDelay)]);
    RunCons(w, ev, Strobe(bits) + [Sleep(EDelay)]);
    SettledStrobeRun(Observe(w, ev), bits);
  }

  /** writeByte(b, mode): RS set to `mode`, the controller latches the high nibble
      of `b` and then its low nibble, E ends low, the lines are held while E is
      high, and the whole write waits 6 times EPulse plus EDelay. */
  lemma ByteFrameRun(w: Watch, b: Byte, characterMode: bool)
    ensures Run(w, ByteFrame(b, characterMode))
      == Watch(Strobed(w.bus.(rs := characterMode), b),
               w.latched + [Latch(characterMode, b >> 4), Latch(characterMode, b & 0x0F)],
               w.held && !w.bus.e, w.waited + 6 * EPulse + EDelay)
  {
    var ev := Drive(RS, characterMode);
    var hi, tail := Strobe(b >> 4), Strobe(b) + [Sleep(EDelay)];
    var w1 := w.(bus := w.bus.(rs := characterMode), held := w.held && !w.bus.e);
    var w2 := Watch(Strobed(w1.bus, b >> 4), w.latched + [Latch(characterMode, b >> 4)], w1.held, w.waited + 3 * EPulse);
    calc {
      Run(w, ByteFrame(b, characterMode));
      { assert ByteFrame(b, characterMode) == [ev] + (hi + tail); }
      Run(w, [ev] + (hi + tail));
      { RunCons(w, ev, hi + tail); assert Observe(w, ev) == w1; }
      Run(w1, hi + tail);
      { RunAppend(w1, hi, tail); StrobeRun(w1, b >> 4); NibbleOfHighHalf(b); }
      Run(w2, tail);
      { SettledStrobeRun(w2, b); StrobedTwice(w1.bus, b >> 4, b);
        assert w.latched + [Latch(characterMode, b >> 4)] + [Latch(characterMode, b & 0x0F)]
            == w.latched + [Latch(characterMode, b >> 4), Latch(characterMode, b & 0x0F)]; }
      Watch(Strobed(w.bus.(rs := characterMode), b),
            w.latched + [Latch(characterMode, b >> 4), Latch(characterMode, b & 0x0F)],
            w.held && !w.bus.e, w.waited + 6 * EPulse + EDelay);
    }
  }

  /** A second push4bits overrides every line the first one set. */
  lemma StrobedTwice(s: Bus, a: Byte, b: Byte)
    ensures Strobed(Strobed(s, a), b) == Strobed(s, b)
  {}

  /** Bits 4..7 of a byte, shifted down, are a nibble. */
  lemma NibbleOfHighHalf(b: Byte)
    ensures (b >> 4) & 0x0F == b >> 4
  {}

  /** A byte is the high latched nibble times 16 plus the low latched nibble. */
  lemma NibblesRecombine(b: Byte)
    ensures ((b >> 4) << 4) | (b & 0x0F) == b
    ensures (b >> 4) as int * 16 + (b & 0x0F) as int == b as int
  {}

  /** The last byte write of a sequence comes last on the pins. */
  lemma EncodeSnoc(ts: seq<Transfer>, t: Transfer)
    ensures Encode(ts + [t]) == Encode(ts) + ByteFrame(t.value, t.data)
  {
    assert (ts + [t])[..|ts|] == ts;
  }

  lemma {:induction false} EncodeAppend(a: seq<Transfer>, b: seq<Transfer>)
    ensures Encode(a + b) == Encode(a) + Encode(b)
    decreases |b|
  {
    if b == [] {
      assert a + b == a;
    } else {
      var init, t := b[..|b| - 1], b[|b| - 1];
      assert b == init + [t];
      assert a + b == (a + init) + [t];
      EncodeSnoc(a + init, t);
      EncodeSnoc(init, t);
      EncodeAppend(a, init);
      Concat2(Encode(a), Encode(init), ByteFrame(t.value, t.data));
    }
  }

  /** What a run over the pin events of the transfers `ts` has done to the
      observer `w`: latched two nibbles per byte, left E low after a non-empty
      sequence, held the lines while E was high as long as E started low, and
      waited 6 EPulse + EDelay per byte. */
  ghost predicate EncodedRun(w: Watch, ts: seq<Transfer>, r: Watch) {
    && r.latched == w.latched + Nibbles(ts)
    && r.held == (w.held && (ts != [] ==> !w.bus.e))
    && (ts != [] ==> !r.bus.e)
    && (ts == [] ==> r.bus == w.bus)
    && r.waited == w.waited + |ts| * (6 * EPulse + EDelay)
  }

  /** Any sequence of byte writes is latched as two nibbles per byte, whatever
      the starting levels (see EncodedRun). */
  lemma {:induction false} EncodeRun(w: Watch, ts: seq<Transfer>)
    ensures EncodedRun(w, ts, Run(w, Encode(ts)))
    decreases |ts|
  {
    if ts == [] {
      assert Encode(ts) == [];
      assert w.latched + Nibbles(ts) == w.latched;
    } else {
      var init, t := ts[..|ts| - 1], ts[|ts| - 1];
      assert ts == init + [t];
      EncodeRun(w, init);
      EncodeSnoc(init, t);
      RunAppend(w, Encode(init), ByteFrame(t.value, t.data));
      EncodeRunStep(w, init, t, Run(w, Encode(init)), Run(w, Encode(ts)));
    }
  }

  /** One more byte write extends EncodedRun. */
  lemma EncodeRunStep(w: Watch, init: seq<Transfer>, t: Transfer, m: Watch, r: Watch)
    requires EncodedRun(w, init, m)
    requires r == Run(m, ByteFrame(t.value, t.data))
    ensures EncodedRun(w, init + [t], r)
  {
    ByteFrameRun(m, t.value, t.data);
    NibblesSnoc(init, t);
    Concat2(w.latched, Nibbles(init), [Latch(t.data, t.value >> 4), Latch(t.data, t.value & 0x0F)]);
    MulSucc(|init|, 6 * EPulse + EDelay);
  }

  lemma NibblesSnoc(ts: seq<Transfer>, t: Transfer)
    ensures Nibbles(ts + [t]) == Nibbles(ts) + [Latch(t.data, t.value >> 4), Latch(t.data, t.value & 0x0F)]
  {
    assert (ts + [t])[..|ts|] == ts;
  }

  lemma MulSucc(n: nat, k: nat)
    ensures (n + 1) * k == n * k + k
  {}

  lemma {:induction false} DecodeAppend(a: seq<Latch>, b: seq<Latch>)
    requires |a| % 2 == 0
    ensures Decode(a + b) == Decode(a) + Decode(b)
    decreases |a|
  {
    if a == [] {
      assert a + b == b;
    } else {
      assert (a + b)[2..] == a[2..] + b;
      DecodeAppend(a[2..], b);
    }
  }

  /** Pairing the latches of any sequence of byte writes gives the sequence back. */
  lemma {:induction false} DecodeNibbles(ts: seq<Transfer>)
    ensures Decode(Nibbles(ts)) == ts
    decreases |ts|
  {
    if ts != [] {
      var init := ts[..|ts| - 1];
      var t := ts[|ts| - 1];
      var pair := [Latch(t.data, t.value >> 4), Latch(t.data, t.value & 0x0F)];
      DecodeNibbles(init);
      DecodeAppend(Nibbles(init), pair);
      NibblesRecombine(t.value);
      assert Decode(pair) == [t];
      assert init + [t] == ts;
    }
  }

  /** The encoder's round trip: what the controller reads off the pins is exactly
      the sequence of (mode, byte) transfers that was written. */
  lemma EncodeRoundTrip(s: Bus, ts: seq<Transfer>)
    ensures Decode(Latches(s, Encode(ts))) == ts
  {
    EncodeRun(Watching(s), ts);
    assert Latches(s, Encode(ts)) == [] + Nibbles(ts) == Nibbles(ts);
    DecodeNibbles(ts);
  }

  /** One handshake nibble followed by its wait: the nibble is latched with RS
      low, E ends low, and the step waits its settle time plus `us`. */
  lemma HandshakeStepRun(w: Watch, bits: Byte, us: nat)
    requires bits <= 0x0F
    ensures var r := Run(w, HandshakeStep(bits, us));
      && r.latched == w.latched + [Latch(LcdCmd, bits)]
      && !r.bus.e
      && r.held == (w.held && !w.bus.e)
      && r.waited == w.waited + 3 * EPulse + EDelay + us
  {
    calc {
      Run(w, HandshakeStep(bits, us));
      { RunAppend(w, NibbleFrame(bits, LcdCmd), [Sleep(us)]); }
      Run(Run(w, NibbleFrame(bits, LcdCmd)), [Sleep(us)]);
      { RunSingle(Run(w, NibbleFrame(bits, LcdCmd)), Sleep(us)); }
      Observe(Run(w, NibbleFrame(bits, LcdCmd)), Sleep(us));
    }
    NibbleFrameRun(w, bits, LcdCmd);
    assert bits & 0x0F == bits;
  }

  /** The handshake is latched as the nibbles 3, 3, 3, 2 with RS low, ends with E
      low, and waits 5 ms after the first nibble and 120 us after each other one. */
  lemma HandshakeRun(w: Watch)
    ensures var r := Run(w, Handshake());
      && r.latched == w.latched + HandshakeNibbles()
      && !r.bus.e
      && r.held == (w.held && !w.bus.e)
      && r.waited == w.waited + 4 * (3 * EPulse + EDelay) + 5000 + 3 * 120
  {
    var p1, p2, p4 := HandshakeStep(0x3, 5000), HandshakeStep(0x3, 120), HandshakeStep(0x2, 120);
    var w1 := Run(w, p1);
    var w2 := Run(w1, p2);
    var w3 := Run(w2, p2);
    var w4 := Run(w3, p4);
    calc {
      Run(w, Handshake());
      { RunAppend(w, p1 + p2 + p2, p4); }
      Run(Run(w, p1 + p2 + p2), p4);
      { RunAppend(w, p1 + p2, p2); }
      Run(Run(Run(w, p1 + p2), p2), p4);
      { RunAppend(w, p1, p2); }
      w4;
    }
    HandshakeStepRun(w, 0x3, 5000);
    HandshakeStepRun(w1, 0x3, 120);
    HandshakeStepRun(w2, 0x3, 120);
    HandshakeStepRun(w3, 0x2, 120);
    assert w4.latched == w.latched + [Latch(LcdCmd, 0x3)] + [Latch(LcdCmd, 0x3)] + [Latch(LcdCmd, 0x3)] + [Latch(LcdCmd, 0x2)];
    SnocFour(w.latched, Latch(LcdCmd, 0x3), Latch(LcdCmd, 0x3), Latch(LcdCmd, 0x3), Latch(LcdCmd, 0x2));
  }

  /** The handshake nibbles of reset(), as latched. */
  function HandshakeNibbles(): seq<Latch> {
    [Latch(LcdCmd, 0x3), Latch(LcdCmd, 0x3), Latch(LcdCmd, 0x3), Latch(LcdCmd, 0x2)]
  }

  /** reset() on the pins: the handshake nibbles, then two nibbles per set-up
      instruction; E ends low; the lines are held while E is high when E starts
      low; the waits add up to the handshake's, the instructions' and 5 ms. */
  lemma InitSequenceRun(s: Bus)
    ensures var r := Run(Watching(s), InitSequence());
      && r.latched == HandshakeNibbles() + Nibbles(InitCommands())
      && !r.bus.e
      && r.held == !s.e
      && r.waited == 4 * (3 * EPulse + EDelay) + 5000 + 3 * 120 + 4 * (6 * EPulse + EDelay) + 5000
  {
    HandshakeThenRun(s, InitCommands(), 5000);
  }

  lemma HandshakeThenRun(s: Bus, ts: seq<Transfer>, us: nat)
    ensures var r := Run(Watching(s), Handshake() + Encode(ts) + [Sleep(us)]);
      && r.latched == HandshakeNibbles() + Nibbles(ts)
      && !r.bus.e
      && r.held == !s.e
      && r.waited == 4 * (3 * EPulse + EDelay) + 5000 + 3 * 120 + |ts| * (6 * EPulse + EDelay) + us
  {
    var w := Watching(s);
    HandshakeRun(w);
    assert Run(w, Handshake()).latched == [] + HandshakeNibbles() == HandshakeNibbles();
    EncodeAfter(w, Handshake(), ts, us);
  }

  /** Byte writes and a final wait after any prefix `h` of a trace. */
  lemma EncodeAfter(w: Watch, h: seq<Event>, ts: seq<Transfer>, us: nat)
    ensures var m, r := Run(w, h), Run(w, h + Encode(ts) + [Sleep(us)]);
      && r.latched == m.latched + Nibbles(ts)
      && (!m.bus.e ==> !r.bus.e)
      && r.held == (m.held && (ts != [] ==> !m.bus.e))
      && r.waited == m.waited + |ts| * (6 * EPulse + EDelay) + us
  {
    RunAppend(w, h + Encode(ts), [Sleep(us)]);
    RunAppend(w, h, Encode(ts));
    RunSingle(Run(w, h + Encode(ts)), Sleep(us));
    EncodeRun(Run(w, h), ts);
  }

  /** reset(): the controller latches the handshake nibbles 3, 3, 3, 2 and then
      exactly the instructions 0x28, 0x0C, 0x06, 0x01, all with RS low. */
  lemma InitSequenceLatches(s: Bus)
    ensures var ls := Latches(s, InitSequence());
      && |ls| == 12
      && ls[..4] == HandshakeNibbles()
      && Decode(ls[4..]) == InitCommands()
  {
    InitSequenceRun(s);
    DecodeNibbles(InitCommands());
    var ls := Latches(s, InitSequence());
    assert ls[..4] == HandshakeNibbles();
    assert ls[4..] == Nibbles(InitCommands());
  }
}
