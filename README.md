# go-hd44780 in Dafny

A model of the two drivers of the go-hd44780 package, which show text on a
Hitachi HD44780 character LCD, and of the package's constants.

- `GPIO4bit` drives the controller in 4-bit mode over six GPIO lines: RS, E
  and D4..D7. Every pin change and every wait it makes is appended to a
  trace of `Protocol.Event`s. The model reads that trace back the way the
  controller does: `Protocol.Run` latches RS and D4..D7 at each falling edge
  of E. Decoding the latched nibbles gives back exactly the bytes the driver
  meant to send (`Protocol.EncodeRoundTrip`).
- `I2C4bit` hands the same work to a controller driver behind an I2C
  expander. Its model records the calls it makes on that driver, and its
  closing of the I2C bus (`I2c.Call`). It writes text rune by rune: Go's
  `range` over a string decodes UTF-8, and `byte(c)` keeps the low eight
  bits of each code point (`Utf8`).
- Both drivers share one redraw rule (`RedrawCache`). A line's text is
  padded with spaces or cut to the line width. It is sent only when it
  differs from what the line last showed. `DisplayLines` splits a message at
  line breaks and shows segment i on line i.

Module layout:

- `consts.dfy`: the constants of consts.go.
- `text.dfy`: bytes, padding and truncation, splitting at `\n`.
- `utf8.dfy`: UTF-8 decoding as Go's `range` over a string does it.
- `redraw.dfy`: the redraw cache.
- `protocol.dfy`: the pin protocol and its decoding.
- `gpio.dfy`: the GPIO4bit class.
- `i2c.dfy`: the I2C4bit class.
- `seqs.dfy`: small sequence lemmas.

Each driver is a `class` whose methods update its fields in place, as the
Go methods do. Every method is proved against a function of the old state.
For example, `Display` and `DisplayLines` leave the cache equal to
`DisplayStep`'s and `DisplayAll`'s, and append exactly the pin events or
calls of their writes. The lemmas beside them prove what those functions
mean: what the cache holds afterwards, idempotence, skipping unchanged
lines, and the round trips of the pin protocol and of the I2C calls.

Behaviour of the source that the model reproduces as it is:

- `Clear`, `Close` and `Reset` leave the redraw cache as it was. A following
  `Display` of the same text is then skipped.
- `I2C4bit.Close` does not clear the driver handle.
- `GPIO4bit.Close` sends 0x0C, which leaves the display on, although the
  comment beside it says "Display Off" (`Gpio.CloseInstructionKeepsDisplayOn`).
- Padding and truncation count bytes, not runes, on both drivers.

Parameters and fields that replace what the model cannot see:

- The outcome of opening the GPIO memory map is a parameter of
  `GPIO4bit.Open`. The outcome of constructing the I2C controller driver is a
  parameter of `I2C4bit.Open`.
- Waits are `Sleep(us)` events in the trace. Their sum is tracked by the
  observer.
- The controller driver's calls, and the closing of the I2C bus through
  `embd.CloseI2C`, are a `seq<Call>` field.

## Model

| member | source | states |
|---|---|---|
| `Consts.ModeFlagsDiffer` | consts.go:12-13 | the register-select level for characters is high and for instructions low, so the two never coincide |
| `Consts.LineAddressesAreDdramCommands` | consts.go:15-16 | both line constants are Set-DDRAM-address instructions (bit 7 set) for DDRAM addresses 0x00 and 0x40 |
| `Consts.SettleOutlastsPulse` | consts.go:7-8 | the settle wait after a transfer (70 us) is longer than the enable-pulse wait (1 us), and both are positive |
| `Text.Spaces` | gpio_conn.go:272 | the padding is exactly n space bytes |
| `Text.Normalize` | gpio_conn.go:271-275 | where the source's fitting does not panic, its result equals the intended pad-or-truncate to the line width |
| `Text.PadOrTruncate` | gpio_conn.go:271-275 | a fitted line is always exactly `width` bytes long |
| `Text.PadOrTruncateContents` | gpio_conn.go:271-275 | column i of a fitted line is the text's byte i when the text has one, a space otherwise |
| `Text.PadOrTruncateIdempotent` | gpio_conn.go:271-280 | fitting a fitted line changes nothing, and a text of exactly the width is kept as is |
| `Text.DefaultWidthAlwaysFits` | consts.go:11 | with the default width lcdWidth, fitting never panics, whatever the text's length |
| `Text.NormalizePanicsOffDefaultWidth` | gpio_conn.go:271-275 | with width 20, texts of 16..19 bytes are cut past their end; with width 12, texts of 13..15 bytes get a negative padding count; both panic |
| `Text.Split` | gpio_conn.go:253 | splitting at the separator always yields at least one segment |
| `Text.SplitPiecesHaveNoSeparator` | gpio_conn.go:253 | no segment of a split contains the separator |
| `Text.JoinSplit` | gpio_conn.go:253 | joining the segments with the separator gives back the message |
| `Text.SplitAtFirstSeparator` | gpio_conn.go:253 | a message is cut at its first separator; a message without one is a single segment |
| `Text.SplitJoin` | gpio_conn.go:253 | splitting a join of separator-free segments gives back those segments |
| `RedrawCache.DisplayStep` | gpio_conn.go:259-289 | Display keeps the cache's length, writes nothing on a closed device, and writes only the line asked for, below Lines |
| `RedrawCache.DisplayStepCases` | gpio_conn.go:263-288 | Display writes nothing if and only if the device is closed, the line is at or past Lines, or the cached text equals the fitted text; otherwise it writes exactly the fitted text to that line and caches it, leaving every other cached line alone |
| `RedrawCache.DisplayStepSkips` | gpio_conn.go:263-280 | in the three early-return cases neither the cache nor the display changes |
| `RedrawCache.DisplayStepRewrites` | gpio_conn.go:282-288 | a changed line is cached as its fitted text and written once |
| `RedrawCache.DisplayStepIdempotent` | gpio_conn.go:277-280 | showing the same text on the same line twice writes nothing the second time |
| `RedrawCache.FreshCacheNeverSkips` | gpio_conn.go:83 | right after Open the cache holds empty lines, so for a positive width the first Display of any line below Lines always writes it, since its fitted line is never empty |
| `RedrawCache.DisplayAll` | gpio_conn.go:252-256 | DisplayLines keeps the cache's length, writes nothing on a closed device, and writes only lines below Lines that have a segment |
| `RedrawCache.DisplayAllStep` | gpio_conn.go:253-255 | the outcome of DisplayLines over segments 0..i is its outcome over 0..i-1 followed by Display(i, segment i) |
| `RedrawCache.DisplayAllDropsExtraSegments` | gpio_conn.go:267-269 | segments past Lines change nothing: the outcome is that of the first Lines segments |
| `RedrawCache.LaterLineUntouched` | gpio_conn.go:252-256 | while DisplayLines works through the segments, a line no segment has reached yet keeps its cached text |
| `RedrawCache.DisplayAllCache` | gpio_conn.go:252-256 | after DisplayLines on an open device, cached line i holds segment i fitted to the width for each i below Lines with a segment; every other cached line is unchanged |
| `RedrawCache.DisplayAllUpToDate` | gpio_conn.go:277-280 | when every line already shows its fitted segment, DisplayLines writes nothing |
| `RedrawCache.DisplayAllIdempotent` | gpio_conn.go:252-256 | repeating the same DisplayLines call writes nothing and leaves the cache as it is |
| `RedrawCache.DisplayTwoLines` | gpio_conn.go:252-256 | DisplayLines("a\nb") is Display(0, a) followed by Display(1, b) |
| `RedrawCache.DisplayPair` | gpio_conn.go:253-255 | the fold over two segments is the two Display steps, writes concatenated in order |
| `Protocol.Chars` | gpio_conn.go:286-288 | one data write per byte of the text |
| `Protocol.Nibbles` | gpio_conn.go:199-203 | every byte is latched as two nibbles |
| `Protocol.RunAppend` | gpio_conn.go:192-249 | the observer reads a concatenated trace by reading the first part, then the second |
| `Protocol.DataLinesRun` | gpio_conn.go:223-242 | push4bits sets D4..D7 to bits 0..3 and leaves RS and E alone |
| `Protocol.PulseRun` | gpio_conn.go:243-248 | the enable pulse latches the current RS and data nibble once, ends with E low, and waits 3 ePulse |
| `Protocol.DataNibbleOfBits` | gpio_conn.go:223-242 | the nibble on the data lines after push4bits is the low four bits of its argument |
| `Protocol.StrobeRun` | gpio_conn.go:222-249 | push4bits latches exactly one nibble, bits 0..3 of its argument, with the current RS level; E ends low |
| `Protocol.SettledStrobeRun` | gpio_conn.go:216-218 | push4bits followed by the settle wait latches the same nibble and adds eDelay to the time |
| `Protocol.NibbleFrameRun` | gpio_conn.go:209-219 | write4Bits latches one nibble with RS at the requested mode and waits 3 ePulse + eDelay |
| `Protocol.ByteFrameRun` | gpio_conn.go:192-206 | writeByte latches the high nibble, then the low nibble, both with RS at the requested mode; the lines are held while E is high; it waits 6 ePulse + eDelay |
| `Protocol.StrobedTwice` | gpio_conn.go:200-203 | the second push4bits of a byte overwrites every data line the first one set |
| `Protocol.NibbleOfHighHalf` | gpio_conn.go:200 | bits >> 4 already fits in four bits, so its nibble is latched whole |
| `Protocol.NibblesRecombine` | gpio_conn.go:199-203 | the high and the low nibble together make up the byte |
| `Protocol.EncodeAppend` | gpio_conn.go:192-206 | the pin events of consecutive byte writes are the concatenation of each write's events |
| `Protocol.EncodeRun` | gpio_conn.go:192-206 | any sequence of byte writes latches two nibbles per byte, ends with E low, keeps the lines held while E is high when E starts low, and waits 6 ePulse + eDelay per byte |
| `Protocol.DecodeAppend` | gpio_conn.go:199-203 | decoding nibble pairs distributes over concatenation at a byte boundary |
| `Protocol.DecodeNibbles` | gpio_conn.go:199-203 | pairing the latched nibbles gives back the bytes and their modes |
| `Protocol.EncodeRoundTrip` | gpio_conn.go:192-206 | what the controller reads off the pins for any sequence of writes is exactly those writes, whatever the starting levels |
| `Protocol.HandshakeStepRun` | gpio_conn.go:104-112 | one handshake step latches its nibble as an instruction, ends with E low, and waits its settle time plus its pause |
| `Protocol.HandshakeRun` | gpio_conn.go:103-112 | the handshake latches the instruction nibbles 3, 3, 3, 2 and waits 5 ms after the first and 120 us after each other one |
| `Protocol.HandshakeThenRun` | gpio_conn.go:102-120 | the handshake followed by byte writes and a wait latches the handshake nibbles, then two nibbles per byte, and waits the sum of all pauses |
| `Protocol.EncodeAfter` | gpio_conn.go:192-206 | byte writes after any earlier trace add two nibbles per byte to what was latched before |
| `Protocol.InitSequenceRun` | gpio_conn.go:102-120 | reset latches the handshake nibbles and then the set-up instructions, ends with E low, and waits 5 ms + 3 x 120 us + 5 ms plus the transfer times |
| `Protocol.InitSequenceLatches` | gpio_conn.go:102-120 | reset is read by the controller as 12 nibbles: the handshake 3, 3, 3, 2, then the instructions 0x28, 0x0C, 0x06, 0x01 in that order, all as instructions |
| `Gpio.LineWrite` | gpio_conn.go:284-288 | a line rewrite is the line's address as an instruction, followed by one data write per byte of the text |
| `Gpio.LineWritesLength` | gpio_conn.go:284-288 | the writes of a batch of line rewrites number the sum of one address plus the text's length for each line |
| `Gpio.LineWritesAppend` | gpio_conn.go:252-256 | the writes of consecutive line rewrites are concatenated in order |
| `Gpio.OneLineWritten` | gpio_conn.go:284-288 | a single rewrite of a line with an address sends exactly that line's address and text |
| `Gpio.NothingWritten` | gpio_conn.go:277-280 | no rewrites send no pin events |
| `Gpio.LineWriteDecodes` | gpio_conn.go:284-288 | the controller reads a line rewrite as the line's DDRAM address instruction, then the text's bytes as data |
| `Gpio.Blanking` | gpio_conn.go:131-146 | Clear sends four line addresses, each followed by lcdWidth bytes |
| `Gpio.BlankingDecodes` | gpio_conn.go:131-146 | the controller reads Clear as lines 1, 2, 3 and 4, in that order, each rewritten with lcdWidth spaces |
| `Gpio.BlankingEncodes` | gpio_conn.go:131-146 | Clear's pin events are the four blank-line rewrites one after the other |
| `Gpio.CgramCommand` | gpio_conn.go:295 | the instruction is 0x40 + 8 * pos in byte arithmetic, wrapping modulo 256 |
| `Gpio.CgramCommandAddressesSlot` | gpio_conn.go:295 | slots 0..7 give a Set-CGRAM-address instruction for the slot's first row; slots 8..15 leave the CGRAM instruction; the byte repeats every 32 slots |
| `Gpio.CloseInstructionKeepsDisplayOn` | gpio_conn.go:178 | the 0x0C that Close sends is a display-control instruction with the display bit set: the same display-on instruction reset sends |
| `Gpio.EncodeStep` | gpio_conn.go:192-206 | appending one byte's frame to a trace of encoded writes is the encoding of one more write |
| `Gpio.LineWriteStep` | gpio_conn.go:286-288 | each iteration of the column loop adds the next byte as a data write |
| `Gpio.TraceStep` | gpio_conn.go:253-255 | the trace after two batches of rewrites is that of the concatenated batches |
| `Gpio.GPIO4bit.constructor` | gpio_conn.go:49-62 | the default pins 7, 8, 25, 24, 23, 18; 4 lines with addresses lcdLine1, lcdLine2, lcdLine3, lcdLine4; width lcdWidth; closed, with an empty cache and no pin events |
| `Gpio.GPIO4bit.Active` | gpio_conn.go:91-93 | returns whether the interface is open |
| `Gpio.GPIO4bit.SetLevel` | gpio_conn.go:193-197 | drives one pin to one level, nothing else |
| `Gpio.GPIO4bit.Wait` | gpio_conn.go:205 | records one wait, nothing else |
| `Gpio.GPIO4bit.Push4Bits` | gpio_conn.go:222-249 | appends exactly the strobe of its nibble |
| `Gpio.GPIO4bit.WriteByte` | gpio_conn.go:192-206 | appends exactly one byte frame: RS, high nibble, low nibble, settle wait |
| `Gpio.GPIO4bit.Write4Bits` | gpio_conn.go:209-219 | appends exactly one nibble frame: RS, the nibble, settle wait |
| `Gpio.GPIO4bit.WriteAll` | gpio_conn.go:114-118 | appends the byte frames of the given writes, in order |
| `Gpio.GPIO4bit.HandshakeNibble` | gpio_conn.go:104-105 | appends one instruction nibble and its pause |
| `Gpio.GPIO4bit.ResetUnlocked` | gpio_conn.go:102-120 | appends exactly the reset sequence: handshake, the four set-up instructions, 5 ms |
| `Gpio.GPIO4bit.Reset` | gpio_conn.go:96-100 | appends exactly the reset sequence, whether or not the interface is open |
| `Gpio.GPIO4bit.Open` | gpio_conn.go:65-88 | an open interface is left untouched; a failing transport is reported and changes nothing; otherwise the cache becomes Lines empty lines, the reset sequence is sent, and the interface is open |
| `Gpio.GPIO4bit.WriteBlankLine` | gpio_conn.go:131-134 | appends a line address followed by lcdWidth spaces |
| `Gpio.GPIO4bit.WriteLine` | gpio_conn.go:284-288 | appends a line address followed by the first `count` bytes of the text |
| `Gpio.GPIO4bit.WriteBlanking` | gpio_conn.go:131-146 | appends the four blank-line rewrites |
| `Gpio.GPIO4bit.Clear` | gpio_conn.go:123-147 | on an open interface appends the four blank-line rewrites; on a closed one nothing; the cache is not touched |
| `Gpio.GPIO4bit.Close` | gpio_conn.go:150-189 | on a closed interface changes nothing; otherwise blanks the four lines, sends Clear display, waits 5 ms, sends 0x0C, drives all six lines low and closes |
| `Gpio.GPIO4bit.Display` | gpio_conn.go:259-289 | the new cache and the appended pin events are exactly those of the redraw decision: nothing, or the line's address and its fitted text |
| `Gpio.GPIO4bit.Rewrite` | gpio_conn.go:282-288 | caches the fitted text for the line and appends its address and every column |
| `Gpio.SegmentReady` | gpio_conn.go:252-289 | when DisplayLines shows segment i, line i still caches what it held at the start, so Display needs line i's address exactly when the segment changes that line |
| `Gpio.GPIO4bit.DisplayLines` | gpio_conn.go:252-256 | the new cache and the appended pin events are those of showing each segment of the message on its line in order |
| `Gpio.GPIO4bit.SetChar` | gpio_conn.go:291-299 | a definition of a length other than 8 is refused with nothing sent; otherwise the CGRAM address instruction and the 8 rows as data are sent |
| `Gpio.GPIO4bit.ToggleBacklight` | gpio_conn.go:301-302 | does nothing at all |
| `Utf8.RuneSize` | i2c_conn.go:146 | a rune takes one to four bytes and never more than remain; a byte below 0x80 is a rune of its own |
| `Utf8.Glyph` | i2c_conn.go:146-147 | an ASCII byte is written as itself |
| `Utf8.Glyphs` | i2c_conn.go:146-148 | one byte per rune, so never more bytes than the text has |
| `Utf8.LowOfTwo` | i2c_conn.go:147 | for a two-byte rune, the byte built from its last two bytes is its code point modulo 256 |
| `Utf8.LowOfThree` | i2c_conn.go:147 | for a three-byte rune, the byte built from its last two bytes is its code point modulo 256 |
| `Utf8.LowOfFour` | i2c_conn.go:147 | for a four-byte rune, the byte built from its last two bytes is its code point modulo 256 |
| `Utf8.GlyphIsLowByte` | i2c_conn.go:146-147 | the byte written for every rune is its code point modulo 256, and 0xFD (from U+FFFD) for a byte that starts no valid encoding |
| `Utf8.CodePointRange` | i2c_conn.go:146 | each encoding length decodes to exactly its own code point range: no overlong form, no surrogate, nothing past U+10FFFF |
| `Utf8.GlyphsAscii` | i2c_conn.go:146-148 | ASCII text is written byte for byte |
| `Utf8.PaddedAscii` | i2c_conn.go:132-148 | a line fitted from ASCII text stays ASCII and is written byte for byte |
| `Utf8.GlyphsOfRunes` | i2c_conn.go:146-147 | "é" is written as 0xE9 and "€" as 0xAC |
| `Utf8.GlyphsOfBadBytes` | i2c_conn.go:146-147 | a stray continuation byte, a truncated encoding and each byte of an encoded surrogate are written as 0xFD |
| `Utf8.GlyphsCons` | i2c_conn.go:146-147 | the first rune's byte comes first, then the bytes of the runes after it |
| `Utf8.GlyphsNext` | i2c_conn.go:146-147 | each iteration of the range loop adds the next rune's byte and moves past that rune |
| `I2c.Typed` | i2c_conn.go:146-148 | one WriteChar call per byte written |
| `I2c.TypedBytes` | i2c_conn.go:146-148 | call i writes byte i of the text |
| `I2c.TypedAppend` | i2c_conn.go:146-148 | the calls for concatenated texts are concatenated |
| `I2c.Leading` | i2c_conn.go:145-148 | the bytes read back from a call sequence never outnumber its calls |
| `I2c.LeadingTyped` | i2c_conn.go:145-148 | a line's characters are read back up to the next SetCursor |
| `I2c.SendsAppend` | i2c_conn.go:113-117 | the calls of consecutive rewrites are concatenated in order |
| `I2c.SendsCons` | i2c_conn.go:145-148 | each rewrite is SetCursor(0, line) followed by its characters |
| `I2c.CallsStep` | i2c_conn.go:114-116 | the calls after two batches of rewrites are those of the concatenated batches |
| `I2c.TypedStep` | i2c_conn.go:147 | each WriteChar extends the calls by the next byte written |
| `I2c.Shown` | i2c_conn.go:146-148 | a rewrite as the display receives it keeps its line and has one byte per rune of its text |
| `I2c.ShownAscii` | i2c_conn.go:146-148 | ASCII rewrites reach the display unchanged |
| `I2c.SendsStartsWithCursor` | i2c_conn.go:145 | the calls of every rewrite begin with a cursor move |
| `I2c.RewritesAtCursor` | i2c_conn.go:145-148 | SetCursor(0, row) starts a rewrite of that row whose text is the bytes written before the next other call |
| `I2c.RewritesOfLine` | i2c_conn.go:145-148 | SetCursor(0, row) followed by written bytes reads back as exactly one rewrite of that row with those bytes |
| `I2c.RewritesSends` | i2c_conn.go:145-148 | the controller driver can recover every rewrite from the calls made: its line, and one byte per rune of its text, in order |
| `I2c.RewritesSendsAscii` | i2c_conn.go:145-148 | for ASCII text the call encoding round-trips exactly: line and text |
| `I2c.Toggled` | i2c_conn.go:151-160 | on an open device the backlight flag flips; on a closed one it stays |
| `I2c.ToggleTwice` | i2c_conn.go:151-160 | toggling twice restores the backlight flag |
| `I2c.I2C4bit.constructor` | i2c_conn.go:33-40 | 2 lines of width lcdWidth at the given address, closed, no driver, backlight off, no calls made |
| `I2c.I2C4bit.Open` | i2c_conn.go:43-78 | an open device is left untouched; a failing construction is reported and leaves the device closed; otherwise a fresh cache of Lines empty lines, Clear, backlight on, open |
| `I2c.I2C4bit.Active` | i2c_conn.go:81-83 | returns whether the device is open |
| `I2c.I2C4bit.Reset` | i2c_conn.go:86-90 | calls Clear on the controller driver, whether or not the device is open |
| `I2c.I2C4bit.ResetUnlocked` | i2c_conn.go:92-95 | calls Clear on the controller driver |
| `I2c.I2C4bit.Close` | i2c_conn.go:98-110 | on a closed device changes nothing; otherwise backlight off, Clear, close the bus, and the device is closed with the backlight flag off |
| `I2c.I2C4bit.Display` | i2c_conn.go:120-149 | the new cache and the appended calls are exactly those of the redraw decision: nothing, or the cursor to column 0 of the line and one byte per rune of its fitted text |
| `I2c.I2C4bit.Rewrite` | i2c_conn.go:143-148 | caches the fitted text for the line and appends SetCursor(0, line) and one WriteChar per rune |
| `I2c.I2C4bit.WriteRunes` | i2c_conn.go:146-148 | appends one WriteChar per rune of the text, with that rune's byte(c), in order |
| `I2c.I2C4bit.DisplayLines` | i2c_conn.go:113-117 | the new cache and the appended calls are those of showing each segment of the message on its line in order |
| `I2c.I2C4bit.ToggleBacklight` | i2c_conn.go:151-162 | on an open device flips the backlight flag and makes the matching BacklightOff or BacklightOn call; on a closed one changes nothing |

## Left out

- Locking: `sync.Mutex` and the lock/unlock pairs of every method. The model is sequential. `Reset` and `ResetUnlocked` are the locked and the unlocked entry points.
- Pin set-up (`initPin`), the `rpio` memory map and `rpio.Close` are not part of this model. The outcome of `rpio.Open` is a parameter of `GPIO4bit.Open`. `rpio.Close` leaves no pin event.
- The I2C side of `embd` and its HD44780 controller driver are not part of this model. The model records the calls made on that driver, and `embd.CloseI2C`, which closes the bus, as `CloseBus`. The outcome of `hd44780.NewI2C` is a parameter of `I2C4bit.Open`.
- `embd.InitI2C` failing makes the source panic. The model has no such path.
- `hd44780.go` declares an interface, `HD44780`, that neither driver implements: its `Open` returns nothing and its `Display` takes no line, and `I2C4bit` has no `Clear` or `SetChar`. It holds no behaviour of its own.
- Time: every wait is a `Sleep(us)` event. No clock is modelled.
- Text is bytes. `GPIO4bit` writes `text[c]`, the byte itself. `I2C4bit` decodes UTF-8 with the acceptance rules of Go's decoder (`Utf8`). Nothing else of Unicode is modelled.
- Line indices are `nat`. The source takes an `int`, and a negative index would panic on the cache. `Lines` and `Width` are `nat` fields that no operation reassigns.
- `lcdLine3` and `lcdLine4` are not defined in the files modelled. They are parameters of the `GPIO4bit` constructor.
- In `push4bits` and `writeByte` each `if` picks `High()` or `Low()`. The model sends one `Drive(pin, level)` event with the computed level.
- The observer latches RS and D4..D7 at the falling edge of E, as the HD44780 does. The `held` flag shows that those lines keep their levels while E is high, provided E starts low. Setup and hold times are not modelled.
- `Gpio.LineWrites` sends nothing for a line without an address. Display and DisplayLines never produce such a line, because their requires give every line they rewrite an address in `LinesAddr`.
- `I2C4bit.Reset` requires a controller driver (`hasDriver`). The source dereferences a nil pointer when there is none.
- Gpio.GPIO4bit.Display: requires, on an open device, that a line below `Lines` has a cache entry and that the text fits (`Text.Fits`), and an address only when the fitted text differs from the cached one, since an unchanged line returns before the address is read. Where these do not hold the source panics.
- Gpio.GPIO4bit.DisplayLines: requires, on an open device, a fitting text for each segment it shows and an address for each line that segment changes, as Display does, and a cache entry for every line below `Lines`. The last is stronger than the source needs when the message has fewer segments than `Lines`. It excludes only states where `Lines` was raised after `Open`, which made `Lines` entries.
- I2c.I2C4bit.DisplayLines: requires, on an open device, a fitting text for each segment it shows and a cache entry for every line below `Lines`, with the same caveat as the GPIO4bit one.
- I2c.I2C4bit.Display: requires, on an open device, that a line below `Lines` has a cache entry and that the text fits. Where these do not hold the source panics.
- Gpio.GPIO4bit.SetChar: a definition that is not 8 bytes long is returned as an `InvalidGlyph` error with nothing sent. The source panics instead.

## Findings

| source | as written | input that shows it | evidently intended | confidence | as-written member | corrected member |
|---|---|---|---|---|---|---|
| gpio_conn.go:271-275 (and i2c_conn.go:132-136) | the choice between padding and truncating compares the text's length with the constant lcdWidth, while padding and truncation use the field `Width` | `Width` = 20 and a 17-byte text: `text[:20]` slices past the end and panics; `Width` = 12 and a 14-byte text: a padding count of -2 makes `strings.Repeat` panic | compare with `Width`: pad when the text is shorter than the line, truncate otherwise, for any width | not executed | `Text.Normalize` with `Text.NormalizePanicsOffDefaultWidth` | `Text.PadOrTruncate` |
