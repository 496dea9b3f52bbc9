# LiquidCrystalButtons in Dafny

A model of the MeterMaker character-display driver `LiquidCrystalButtons`.
It drives an HD44780-compatible display over a 4-bit parallel bus. It also
reads five push buttons through the same data lines (D4..D7 and RS), which
idle as pulled-up inputs between display transfers.

The model has two halves.

- **Buttons** (`buttons.dfy`, `button_timing.dfy`). Each button is a record
  holding:
  - the last accepted level;
  - the length of the current run of differing samples;
  - an 8-bit auto-repeat countdown;
  - a pending-press latch.

  `Buttons.Step` is one sample of one button. `Buttons.Poll` is `pollButtons`:
  a 16-bit millisecond rate gate, then one `Step` per button. On top of these
  sit the application's queries: `getButtonPressed`, `waitButtonPressed`,
  `readButton`, `readUnBounced` and `clearButtons`. `ButtonTiming` proves the
  timing promises across many samples:
  - a new level is accepted on exactly the twelfth consecutive sample;
  - a held button fires on the 100th held sample and then every 30th;
  - the rate gate turns a second poll within 5 ms into a no-op;
  - a drained press is drained once only.
- **Display** (`gpio.dfy`, `commands.dfy`, `protocol.dfy`, `display.dfy`).
  - Every display operation returns the new driver state together with the
    exact sequence of GPIO calls it makes (`pinMode`, `digitalWrite`,
    `delayMicroseconds`).
  - The `LC_OUTPUT_INVERTED` build switch is the `inverted` field of the bus:
    every level written is the logical level exclusive-or that field. Both
    branches of each `#ifdef` are therefore one definition.
  - `receiver.dfy` is an independent model of the controller's 4-bit bus
    interface. It tracks RS and D4..D7 and latches a nibble on every falling
    edge of the logical enable line.
  - The proofs in `receiver.dfy`, `display_proofs.dfy` and
    `begin_proofs.dfy` connect each trace to what the controller receives:
    - `command`/`write` deliver exactly one byte to the instruction or data
      register, high nibble first;
    - `createChar` delivers the CGRAM address of slot `location & 7` followed
      by eight pattern rows;
    - `setCursor` delivers the clamped row's address;
    - the flag operations deliver the whole flag byte;
    - `begin` delivers the handshake nibbles 3, 3, 3, 2, then the function
      flags, the eight default glyphs, display-on, clear and the entry mode.

The instruction codes and flag bits (`commands.dfy`) come from Table 6 of the
Hitachi HD44780U datasheet. The driver's header, which defines its `LCDB_`
constants, is not part of this model, so the model assumes those constants
carry the datasheet's values (see "Left out").

In three places the code does something its names do not suggest; the model
follows the code:

- `waitButtonPressed` polls while the debounced level of the button is
  *pressed*, so it returns once the button is released. It does not wait for
  a press.
- The constructor initialises only the pins and the function flags. The
  button records and the other display fields keep whatever they held. The
  contract of `Buttons.Step` holds for any record. `HeldCountdown` and
  `ReleasedSampleOnlyRestarts` hold for any countdown, run and latch of a
  record on the level they concern. `RepeatSchedule` and
  `ZeroCountdownWraps` hold for any countdown and run of a drained
  (unlatched) record; in particular the countdown 0 of a zero-filled record
  wraps to 255. `BounceOnlyCounts` and `AcceptedOnTwelfth` need a run of at
  most 11, `DebounceTakesTwelveSamples` starts from run 0, and
  `PressThenAutoRepeat` starts from a released, drained record with run 0.
- `begin` never looks at its `dotsize` argument. The function-set byte
  depends only on whether `lines > 1` (and on the flags the constructor
  left), so a 5x10 font is never selected.

## Model

| member | source | states |
|---|---|---|
| Buttons.Elapsed | Code/Metermaker/LiquidCrystalButtons.cpp:59-60 | the gate's 16-bit difference is the time since the stamp modulo 2^16, so clock wrap-around does not stall polling |
| Buttons.Step | Code/Metermaker/LiquidCrystalButtons.cpp:63-87 | one sample never clears the latch, raises it only on a pressed sample, changes the level only after more than ten differing samples, keeps the run at most 11, and restarts the run on a stable sample |
| Buttons.Poll | Code/Metermaker/LiquidCrystalButtons.cpp:57-89 | within 5 ms of the stamp nothing changes; otherwise the stamp becomes the 16-bit clock and button i steps on the reading of data-pin table entry i (RS for the fifth button); latches are never cleared |
| Buttons.ClearButtons | Code/Metermaker/LiquidCrystalButtons.cpp:48-52 | every latch is dropped, nothing else changes |
| Buttons.GetButtonPressed | Code/Metermaker/LiquidCrystalButtons.cpp:91-96 | reports exactly the button's latch, leaves it cleared, and changes no other button nor the stamp |
| Buttons.ReadButton | Code/Metermaker/LiquidCrystalButtons.cpp:114-117 | 1 exactly when the debounced level is pressed (0), else 0 |
| Buttons.ReadUnbounced | Code/Metermaker/LiquidCrystalButtons.cpp:109-112 | 1 exactly when the raw reading of the button's data-pin table entry is pressed (0), else 0 |
| Buttons.WaitButtonPressed | Code/Metermaker/LiquidCrystalButtons.cpp:98-107 | a pending press returns true at once and consumes no poll; otherwise the state is that of the polls made, every state polled from was still pressed, and it returns false exactly once the level reads released, when `readButton` reports 0 |
| Buttons.PollAll | Code/Metermaker/LiquidCrystalButtons.cpp:103-104 | the polls of the waiting loop, in order; however many are made, no pending press is dropped |
| ButtonTiming.BounceOnlyCounts | Code/Metermaker/LiquidCrystalButtons.cpp:75-84 | inside the debounce window, differing samples only lengthen the run; level, countdown and latch stay put |
| ButtonTiming.AcceptedOnTwelfth | Code/Metermaker/LiquidCrystalButtons.cpp:75-82 | the sample that takes the run past ten is accepted: it becomes the level, loads countdown 100, and latches if pressed |
| ButtonTiming.DebounceTakesTwelveSamples | Code/Metermaker/LiquidCrystalButtons.cpp:63-85 | from a settled record a new level is accepted on the twelfth consecutive sample and on none of the eleven before |
| ButtonTiming.HeldCountdown | Code/Metermaker/LiquidCrystalButtons.cpp:64-72 | while held and drained, from any countdown (0 included), the record stays pressed with no run and the countdown follows the closed form, wrapping 0 to 255 |
| ButtonTiming.RepeatSchedule | Code/Metermaker/LiquidCrystalButtons.cpp:54-72 | a held, drained button with countdown k fires exactly on held sample k (256 when k is 0) and every 30th sample after |
| ButtonTiming.ZeroCountdownWraps | Code/Metermaker/LiquidCrystalButtons.cpp:70-72 | a held record with countdown 0 decrements to 255 without firing, and first fires on the 256th held sample |
| ButtonTiming.PressThenAutoRepeat | Code/Metermaker/LiquidCrystalButtons.cpp:54-88 | a press is latched on the twelfth sample and not before; held on after draining, it fires again exactly on the 100th sample and every 30th after |
| ButtonTiming.ReleasedSampleOnlyRestarts | Code/Metermaker/LiquidCrystalButtons.cpp:64-67 | a stable released sample resets the run and changes nothing else |
| ButtonTiming.PollIsPerButton | Code/Metermaker/LiquidCrystalButtons.cpp:63-87 | a button's new record depends only on its own record, the reading of its own data-pin table entry and the gate |
| ButtonTiming.PollRateLimited | Code/Metermaker/LiquidCrystalButtons.cpp:59-61 | a second poll within 5 ms of an effective one changes nothing |
| ButtonTiming.DrainIsOnce | Code/Metermaker/LiquidCrystalButtons.cpp:91-96 | a second `getButtonPressed` reports false and changes nothing |
| ButtonTiming.ClearedReportsNothing | Code/Metermaker/LiquidCrystalButtons.cpp:48-52 | after `clearButtons`, `getButtonPressed` reports no press for any button and changes nothing |
| ButtonTiming.ReadButtonChangesOnAcceptance | Code/Metermaker/LiquidCrystalButtons.cpp:57-87 | `readButton` changes across a poll exactly when the poll is effective, the run is past ten and the reading is pressed where the level was released or the reverse |
| ButtonTiming.DebouncedAgreesWithRaw | Code/Metermaker/LiquidCrystalButtons.cpp:109-117 | after an effective poll whose reading matched the level or was accepted, `readButton` equals `readUnBounced` of that reading |
| Protocol.Drive | Code/Metermaker/LiquidCrystalButtons.cpp:388-392 | the written level equals the logical level exactly when the build is not inverted |
| Protocol.SetDataLineOutput | Code/Metermaker/LiquidCrystalButtons.cpp:119-123 | one mode call per data-pin table entry (D4, D5, D6, D7, RS), in table order |
| Protocol.ClaimOutputs | Code/Metermaker/LiquidCrystalButtons.cpp:45 | all five data lines become outputs, then a 10 us settle |
| Protocol.ReleaseInputs | Code/Metermaker/LiquidCrystalButtons.cpp:46 | all five data lines become pulled-up inputs, then a 10 us settle |
| Protocol.PulseEnable | Code/Metermaker/LiquidCrystalButtons.cpp:398-414 | six calls, and every level write is to the enable pin |
| Protocol.Write4Bits | Code/Metermaker/LiquidCrystalButtons.cpp:416-432 | data line i carries bit i of the value, then exactly one enable pulse |
| Protocol.Send | Code/Metermaker/LiquidCrystalButtons.cpp:387-396 | RS is written first, and the byte takes 21 calls |
| Protocol.Command | Code/Metermaker/LiquidCrystalButtons.cpp:371-375 | the transfer is bracketed by claiming the lines as outputs and releasing them as inputs |
| Protocol.Write | Code/Metermaker/LiquidCrystalButtons.cpp:377-382 | always reports one byte written; bracketed like a command |
| Protocol.Write4BitsLowNibbleOnly | Code/Metermaker/LiquidCrystalButtons.cpp:416-421 | bits 4..7 of the argument of `write4bits` never reach the bus |
| Protocol.CommandAndWriteDifferOnlyInRs | Code/Metermaker/LiquidCrystalButtons.cpp:371-396 | an instruction and a data byte differ only in the RS level; under the inverted build an instruction drives RS high |
| Receiver.PulseLatches | Code/Metermaker/LiquidCrystalButtons.cpp:398-414 | one pulse from idle latches exactly the nibble on D4..D7, to the register RS selects, and returns enable to idle |
| Receiver.Write4BitsLatches | Code/Metermaker/LiquidCrystalButtons.cpp:416-432 | `write4bits(v)` latches exactly the nibble `v & 0x0F` |
| Receiver.SendCarries | Code/Metermaker/LiquidCrystalButtons.cpp:387-396 | from idle, `send` delivers the high nibble then the low nibble, both to the register selected |
| Receiver.SendFrames | Code/Metermaker/LiquidCrystalButtons.cpp:387-396 | `send` carries exactly one byte transfer, whatever came before it |
| Receiver.ClaimReleaseQuiet | Code/Metermaker/LiquidCrystalButtons.cpp:45-46 | switching the lines' direction carries no transfer |
| Receiver.CommandFrames | Code/Metermaker/LiquidCrystalButtons.cpp:371-375 | `command(v)` delivers exactly the instruction byte v, and decodes to it |
| Receiver.WriteFrames | Code/Metermaker/LiquidCrystalButtons.cpp:377-382 | `write(v)` delivers exactly the data byte v, and decodes to it |
| Display.Construct | Code/Metermaker/LiquidCrystalButtons.cpp:30-43 | records the pins with RS as the fifth data-line entry, sets the whole function byte to the one-line value, and leaves every other field as it was |
| Display.SetRowOffsets | Code/Metermaker/LiquidCrystalButtons.cpp:263-269 | the four table entries become the arguments and nothing else changes |
| Display.Clear | Code/Metermaker/LiquidCrystalButtons.cpp:272-276 | state unchanged; the clear instruction is followed by a 2000 us wait |
| Display.Home | Code/Metermaker/LiquidCrystalButtons.cpp:278-282 | state unchanged; the return-home instruction is followed by a 2000 us wait |
| Display.EffectiveRow | Code/Metermaker/LiquidCrystalButtons.cpp:286-292 | the row used is below 4, below the line count and at most the requested row, and is the request or one of the two clamps |
| Display.SetCursor | Code/Metermaker/LiquidCrystalButtons.cpp:284-295 | state unchanged; one set-DDRAM-address instruction |
| Display.CursorAddress | Code/Metermaker/LiquidCrystalButtons.cpp:286-294 | column plus the offset of the requested row when it exists, else of the last configured line or the last table entry, truncated to a byte |
| Display.SetControl | Code/Metermaker/LiquidCrystalButtons.cpp:298-325 | the chosen display-control bits are set or cleared, all other bits and fields are unchanged, and the full new flag byte is sent |
| Display.SetMode | Code/Metermaker/LiquidCrystalButtons.cpp:336-357 | the chosen entry-mode bits are set or cleared, all other bits and fields are unchanged, and the full new flag byte is sent |
| Display.NoDisplay | Code/Metermaker/LiquidCrystalButtons.cpp:298-301 | display off, cursor and blink as before |
| Display.Display | Code/Metermaker/LiquidCrystalButtons.cpp:302-305 | display on, cursor and blink as before |
| Display.NoCursor | Code/Metermaker/LiquidCrystalButtons.cpp:308-311 | cursor off, display and blink as before |
| Display.Cursor | Code/Metermaker/LiquidCrystalButtons.cpp:312-315 | cursor on, display and blink as before |
| Display.NoBlink | Code/Metermaker/LiquidCrystalButtons.cpp:318-321 | blink off, display and cursor as before |
| Display.Blink | Code/Metermaker/LiquidCrystalButtons.cpp:322-325 | blink on, display and cursor as before |
| Display.LeftToRight | Code/Metermaker/LiquidCrystalButtons.cpp:336-339 | left-to-right entry, autoscroll as before |
| Display.RightToLeft | Code/Metermaker/LiquidCrystalButtons.cpp:342-345 | right-to-left entry, autoscroll as before |
| Display.Autoscroll | Code/Metermaker/LiquidCrystalButtons.cpp:348-351 | shift on entry, direction as before |
| Display.NoAutoscroll | Code/Metermaker/LiquidCrystalButtons.cpp:354-357 | no shift on entry, direction as before |
| Display.ScrollDisplayLeft | Code/Metermaker/LiquidCrystalButtons.cpp:328-330 | no stored flag changes; one cursor-shift instruction |
| Display.ScrollDisplayRight | Code/Metermaker/LiquidCrystalButtons.cpp:331-333 | no stored flag changes; one cursor-shift instruction |
| Display.WriteAll | Code/Metermaker/LiquidCrystalButtons.cpp:364-366 | 33 calls per byte; `DisplayProofs.WriteAllFrames` states what each delivers |
| Display.GlyphAddress | Code/Metermaker/LiquidCrystalButtons.cpp:362-363 | the CGRAM address is a multiple of 8 below 0x40 whose slot is `location & 7` |
| Display.CreateChar | Code/Metermaker/LiquidCrystalButtons.cpp:361-367 | state unchanged; nine transfers, the first selecting the glyph's CGRAM address |
| Display.DefaultGlyph | Code/Metermaker/LiquidCrystalButtons.cpp:246-247 | each default glyph is eight rows long |
| Display.LoadDefaultChars | Code/Metermaker/LiquidCrystalButtons.cpp:246-247 | glyphs i..7 take 33 calls for each of nine transfers per glyph; `BeginProofs.LoadDefaultFrames` states what they deliver |
| Display.PowerUp | Code/Metermaker/LiquidCrystalButtons.cpp:208-224 | every pin touched becomes an output, and the only levels written are the logical low of RS and of enable |
| Display.Handshake | Code/Metermaker/LiquidCrystalButtons.cpp:229-241 | 43 calls: `write4bits(3)`, 4500 us, `write4bits(3)`, 4500 us, `write4bits(3)`, 150 us, `write4bits(2)`; their effect is stated by `BeginProofs.HandshakeLatches`, `HandshakeKeepsRs` and `HandshakeWaits` |
| Display.BeginFunction | Code/Metermaker/LiquidCrystalButtons.cpp:201-203 | the two-line bit is set exactly when more than one line is asked for or was already set, and no other bit changes |
| Display.Configure | Code/Metermaker/LiquidCrystalButtons.cpp:244-259 | leaves display-control 0x04 (on, no cursor, no blink) and entry-mode 0x02 (left to right, no shift), nothing else changed |
| Display.Begin | Code/Metermaker/LiquidCrystalButtons.cpp:200-261 | keeps the bus, records the line count, sets offsets (0, 0x40, cols, 0x40 + cols) and the function flags, and leaves the display on with no cursor or blink, entry left to right without shift |
| DisplayProofs.WriteAllFrames | Code/Metermaker/LiquidCrystalButtons.cpp:364-366 | consecutive writes deliver the bytes to the data register, in order |
| DisplayProofs.CreateCharDelivers | Code/Metermaker/LiquidCrystalButtons.cpp:361-367 | the controller receives set-CGRAM-address `0x40 | (location & 7) << 3`, then the first eight pattern bytes as data, in order |
| DisplayProofs.SetCursorDelivers | Code/Metermaker/LiquidCrystalButtons.cpp:284-295 | the controller receives set-DDRAM-address of column plus the clamped row's offset; the clamp picks the requested row when it is below 4 and the line count, else the last of them |
| DisplayProofs.SetCursorClampExample | Code/Metermaker/LiquidCrystalButtons.cpp:286-294 | on a two-line display, row 5 addresses row 1 |
| DisplayProofs.SetCursorAfterRowOffsets | Code/Metermaker/LiquidCrystalButtons.cpp:263-294 | after `setRowOffsets(o0, o1, o2, o3)`, `setCursor` delivers set-DDRAM-address of column plus o_r modulo 256, r the clamped row |
| DisplayProofs.SetControlIdempotent | Code/Metermaker/LiquidCrystalButtons.cpp:298-325 | repeating a display-control operation changes no state and resends the same instruction |
| DisplayProofs.SetModeIdempotent | Code/Metermaker/LiquidCrystalButtons.cpp:336-357 | repeating an entry-mode operation changes no state and resends the same instruction |
| DisplayProofs.SetControlCommutes | Code/Metermaker/LiquidCrystalButtons.cpp:298-325 | display, cursor and blink operations commute in the state they leave |
| DisplayProofs.TogglesDeliver | Code/Metermaker/LiquidCrystalButtons.cpp:298-357 | each flag operation delivers exactly its family code with the complete new flag byte |
| DisplayProofs.ScrollsDeliver | Code/Metermaker/LiquidCrystalButtons.cpp:328-333 | scrolling delivers cursor-shift 0x18 (left) or 0x1C (right) |
| DisplayProofs.ClearHomeDeliver | Code/Metermaker/LiquidCrystalButtons.cpp:272-282 | `clear` and `home` deliver exactly 0x01 and 0x02 |
| BeginProofs.LoadDefaultFrames | Code/Metermaker/LiquidCrystalButtons.cpp:246-247 | loading default glyphs i..7 delivers, per glyph, its address then its eight rows |
| BeginProofs.PowerUpSelectsInstructions | Code/Metermaker/LiquidCrystalButtons.cpp:208-224 | the power-up part latches nothing and leaves RS on the instruction register with enable idle |
| BeginProofs.HandshakeLatches | Code/Metermaker/LiquidCrystalButtons.cpp:229-241 | the handshake latches exactly the nibbles 3, 3, 3, 2 to the instruction register |
| BeginProofs.HandshakeKeepsRs | Code/Metermaker/LiquidCrystalButtons.cpp:229-241 | the handshake changes no pin direction and never writes RS, so every nibble goes to the register the power-up selected |
| BeginProofs.ConfigureFrames | Code/Metermaker/LiquidCrystalButtons.cpp:244-259 | the rest of `begin` delivers function set, the glyphs, display control 0x0C, clear 0x01 and entry mode 0x06 |
| BeginProofs.BeginDelivers | Code/Metermaker/LiquidCrystalButtons.cpp:200-261 | from an idle enable line, `begin` delivers the handshake nibbles then every set-up byte in order, and leaves enable idle |
| BeginProofs.Write4BitsWaits | Code/Metermaker/LiquidCrystalButtons.cpp:398-414 | a nibble transfer waits 1 us, 1 us, then 100 us |
| BeginProofs.PowerUpWaits | Code/Metermaker/LiquidCrystalButtons.cpp:208-216 | before the handshake the only waits are the 10 us settle and 50 ms |
| BeginProofs.HandshakeWaits | Code/Metermaker/LiquidCrystalButtons.cpp:229-241 | the handshake waits 4500 us, 4500 us and 150 us after the first three nibbles |
| BeginProofs.BeginWaits | Code/Metermaker/LiquidCrystalButtons.cpp:208-241 | the full wait schedule from power-up to the end of the handshake |
| BeginProofs.BeginIgnoresDotsize | Code/Metermaker/LiquidCrystalButtons.cpp:200-261 | the font-size argument changes neither the state nor any pin call |
| BeginProofs.FreshFunctionSet | Code/Metermaker/LiquidCrystalButtons.cpp:200-244 | after construction, `begin` sends function set 0x28 for more than one line and 0x20 otherwise |

## Left out

- Real time and hardware. The millisecond clock and what `digitalRead`
  returns for each pin during a poll are parameters. Microsecond waits are `DelayMicroseconds` events
  in the trace and are not performed.
- `waitButtonPressed` blocks without bound. The model consumes a finite
  sequence of poll inputs and reports `StillWaiting` if they run out, so an
  endless wait is not modelled.
- Buttons.Poll: the sampling routine does not switch the data lines to
  inputs itself (that call is commented out at
  `Code/Metermaker/LiquidCrystalButtons.cpp:59`). The model does not check
  that no display transfer has left them as outputs; every `command` and
  `write` ends by releasing them.
- Program-memory reads (`pgm_read_byte_near`) are plain sequence reads.
- The controller's display and character-generator memories are not
  modelled. The receiver model records what reaches each register and stops
  there.
- The 16-bit `int` row offsets are unbounded integers. Truncating the
  address to one byte gives the same result either way.
- Display.SetCursor: requires at least one configured line. With a line
  count of 0, the row index becomes 255 and the driver reads past its
  four-entry offset table (undefined behaviour).
- Button indices must be below 5. The driver indexes its five-entry arrays
  unchecked.
- Display.CreateChar: requires at least eight pattern bytes, because the
  driver always reads eight.
- `print`-style text output of the Arduino `Print` base class and
  `mini-printf.h` are not part of this model.
- The `LCDB_` instruction codes and flag bits are taken from Table 6 of the
  HD44780U datasheet, because the header defining them is not part of this
  model; that the header uses those values is an assumption.
- `repeat_states_init_ctr` and `repeat_states_next_ctr` are mutable globals
  in the source. The model fixes them at their initial values, 100 and 30;
  nothing in the driver changes them, but the application could.
- Protocol.PulseEnable: states the shape of the pulse but not its waits.
  `BeginProofs.Write4BitsWaits` states the waits for the pulse inside every
  nibble.
