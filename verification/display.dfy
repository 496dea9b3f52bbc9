/**
 * The display side of the driver: the state it keeps about the controller
 * (function, display-control and entry-mode flag bytes, line count and row
 * start addresses) and every public display operation, each as the new
 * state together with the pin calls it makes.
 */
module Display {
  import opened Gpio
  import opened Commands
  import opened Protocol

  /** Start address in display memory of each of the (at most four) rows. */
  datatype RowOffsets = RowOffsets(r0: int, r1: int, r2: int, r3: int)

  /** Number of entries of the row-offset table. */
  const MaxLines := 4

  /** Entry `row` of the row-offset table. */
  function Offset(o: RowOffsets, row: nat): int
    requires row < MaxLines
  {
    match row
    case 0 => o.r0
    case 1 => o.r1
    case 2 => o.r2
    case _ => o.r3
  }

  /** The driver's display state. */
  datatype Lcd = Lcd(
    bus: Bus,
    displayFunction: bv8,
    displayControl: bv8,
    displayMode: bv8,
    numLines: Byte,
    rowOffsets: RowOffsets)

  /** A display operation's outcome: the new state and the pin calls made. */
  datatype Op = Op(lcd: Lcd, trace: seq<Event>)

  /** Power-up wait before the first nibble of `begin`. */
  const PowerUpUs: nat := 50000

  /** Wait after the slow clear and home instructions. */
  const SlowCommandUs: nat := 2000

  /**
   * The constructor: records the pins (RS is also the fifth data-pin table
   * entry) and sets the function flags to one line. It initialises nothing
   * else, so the other fields keep whatever `prior` held.
   */
  function Construct(rs: Pin, enable: Pin, d4: Pin, d5: Pin, d6: Pin, d7: Pin, inverted: bool, prior: Lcd): (l: Lcd)
    ensures l.bus.pins.rs == rs && l.bus.pins.enable == enable
    ensures DataLine(l.bus.pins, 0) == d4 && DataLine(l.bus.pins, 1) == d5
    ensures DataLine(l.bus.pins, 2) == d6 && DataLine(l.bus.pins, 3) == d7
    ensures DataLine(l.bus.pins, 4) == rs
    ensures l.bus.inverted == inverted
    ensures l.displayFunction == ONELINE
    ensures l == prior.(bus := l.bus, displayFunction := l.displayFunction)
  {
    prior.(bus := Bus(Pins(rs, enable, d4, d5, d6, d7), inverted), displayFunction := ONELINE)
  }

  /** `setRowOffsets`: replaces the row start addresses and nothing else. */
  function SetRowOffsets(lcd: Lcd, row0: int, row1: int, row2: int, row3: int): (l: Lcd)
    ensures Offset(l.rowOffsets, 0) == row0 && Offset(l.rowOffsets, 1) == row1
    ensures Offset(l.rowOffsets, 2) == row2 && Offset(l.rowOffsets, 3) == row3
    ensures l == lcd.(rowOffsets := l.rowOffsets)
  {
    lcd.(rowOffsets := RowOffsets(row0, row1, row2, row3))
  }

  /** `clear`: the clear instruction, then a long wait; the state is unchanged. */
  function Clear(lcd: Lcd): (r: Op)
    ensures r.lcd == lcd
    ensures |r.trace| > 0 && r.trace[|r.trace| - 1] == DelayMicroseconds(SlowCommandUs)
    ensures r.trace[..|r.trace| - 1] == Command(lcd.bus, CLEARDISPLAY)
  {
    Op(lcd, Command(lcd.bus, CLEARDISPLAY) + [DelayMicroseconds(SlowCommandUs)])
  }

  /** `home`: the return-home instruction, then a long wait; the state is unchanged. */
  function Home(lcd: Lcd): (r: Op)
    ensures r.lcd == lcd
    ensures |r.trace| > 0 && r.trace[|r.trace| - 1] == DelayMicroseconds(SlowCommandUs)
    ensures r.trace[..|r.trace| - 1] == Command(lcd.bus, RETURNHOME)
  {
    Op(lcd, Command(lcd.bus, RETURNHOME) + [DelayMicroseconds(SlowCommandUs)])
  }

  /**
   * The row `setCursor` actually addresses: the requested row, clamped first
   * to the last entry of the offset table, then to the last configured line.
   */
  function EffectiveRow(numLines: Byte, row: Byte): (r: nat)
    requires numLines >= 1
    ensures r < MaxLines && r < numLines && r <= row
    ensures r == row || r == MaxLines - 1 || r == numLines - 1
  {
    var clamped := if row >= MaxLines then MaxLines - 1 else row;
    if clamped >= numLines then numLines - 1 else clamped
  }

  /**
   * The display-memory address `setCursor` sends: column plus the clamped
   * row's offset, truncated to the eight bits the instruction carries.
   */
  function CursorAddress(lcd: Lcd, col: Byte, row: Byte): (a: Byte)
    requires lcd.numLines >= 1
    // a row that exists in the table and on the display is used as asked
    ensures row < MaxLines && row < lcd.numLines ==> a == (col + Offset(lcd.rowOffsets, row)) % 256
    // past the configured lines, the last configured line (when the table holds it)
    ensures row >= lcd.numLines && lcd.numLines <= MaxLines ==>
              a == (col + Offset(lcd.rowOffsets, lcd.numLines - 1)) % 256
    // past the table, its last entry (when the display has that many lines)
    ensures row >= MaxLines && lcd.numLines >= MaxLines ==> a == (col + Offset(lcd.rowOffsets, MaxLines - 1)) % 256
  {
    (col + Offset(lcd.rowOffsets, EffectiveRow(lcd.numLines, row))) % 256
  }

  /** `setCursor`: one set-DDRAM-address instruction for column `col` of the clamped row. */
  function SetCursor(lcd: Lcd, col: Byte, row: Byte): (r: Op)
    requires lcd.numLines >= 1
    ensures r.lcd == lcd
    ensures r.trace == Command(lcd.bus, SETDDRAMADDR | CursorAddress(lcd, col, row) as bv8)
  {
    Op(lcd, Command(lcd.bus, SETDDRAMADDR | CursorAddress(lcd, col, row) as bv8))
  }

  /** `a` and `b` agree on every bit outside `flag`. */
  predicate SameOutside(a: bv8, b: bv8, flag: bv8)
  {
    a & !flag == b & !flag
  }

  /**
   * Turns the display-control bits `flag` on or off and re-sends the
   * display-control instruction with the whole flag byte.
   */
  function SetControl(lcd: Lcd, flag: bv8, on: bool): (r: Op)
    ensures on ==> r.lcd.displayControl & flag == flag
    ensures !on ==> r.lcd.displayControl & flag == 0
    ensures SameOutside(r.lcd.displayControl, lcd.displayControl, flag)
    ensures r.lcd == lcd.(displayControl := r.lcd.displayControl)
    ensures r.trace == Command(lcd.bus, DISPLAYCONTROL | r.lcd.displayControl)
  {
    var c := if on then lcd.displayControl | flag else lcd.displayControl & !flag;
    Op(lcd.(displayControl := c), Command(lcd.bus, DISPLAYCONTROL | c))
  }

  /**
   * Turns the entry-mode bits `flag` on or off and re-sends the entry-mode
   * instruction with the whole flag byte.
   */
  function SetMode(lcd: Lcd, flag: bv8, on: bool): (r: Op)
    ensures on ==> r.lcd.displayMode & flag == flag
    ensures !on ==> r.lcd.displayMode & flag == 0
    ensures SameOutside(r.lcd.displayMode, lcd.displayMode, flag)
    ensures r.lcd == lcd.(displayMode := r.lcd.displayMode)
    ensures r.trace == Command(lcd.bus, ENTRYMODESET | r.lcd.displayMode)
  {
    var m := if on then lcd.displayMode | flag else lcd.displayMode & !flag;
    Op(lcd.(displayMode := m), Command(lcd.bus, ENTRYMODESET | m))
  }

  predicate DisplayOn(lcd: Lcd) { lcd.displayControl & DISPLAYON != 0 }
  predicate CursorOn(lcd: Lcd) { lcd.displayControl & CURSORON != 0 }
  predicate BlinkOn(lcd: Lcd) { lcd.displayControl & BLINKON != 0 }
  predicate EntryLeft(lcd: Lcd) { lcd.displayMode & ENTRYLEFT != 0 }
  predicate Autoscrolling(lcd: Lcd) { lcd.displayMode & ENTRYSHIFTINCREMENT != 0 }

  /** `noDisplay`: display off; cursor and blink as they were. */
  function NoDisplay(lcd: Lcd): (r: Op)
    ensures !DisplayOn(r.lcd) && CursorOn(r.lcd) == CursorOn(lcd) && BlinkOn(r.lcd) == BlinkOn(lcd)
  {
    SetControl(lcd, DISPLAYON, false)
  }

  /** `display`: display on; cursor and blink as they were. */
  function Display(lcd: Lcd): (r: Op)
    ensures DisplayOn(r.lcd) && CursorOn(r.lcd) == CursorOn(lcd) && BlinkOn(r.lcd) == BlinkOn(lcd)
  {
    SetControl(lcd, DISPLAYON, true)
  }

  /** `noCursor`: underline cursor off; display and blink as they were. */
  function NoCursor(lcd: Lcd): (r: Op)
    ensures !CursorOn(r.lcd) && DisplayOn(r.lcd) == DisplayOn(lcd) && BlinkOn(r.lcd) == BlinkOn(lcd)
  {
    SetControl(lcd, CURSORON, false)
  }

  /** `cursor`: underline cursor on; display and blink as they were. */
  function Cursor(lcd: Lcd): (r: Op)
    ensures CursorOn(r.lcd) && DisplayOn(r.lcd) == DisplayOn(lcd) && BlinkOn(r.lcd) == BlinkOn(lcd)
  {
    SetControl(lcd, CURSORON, true)
  }

  /** `noBlink`: blinking cursor off; display and cursor as they were. */
  function NoBlink(lcd: Lcd): (r: Op)
    ensures !BlinkOn(r.lcd) && DisplayOn(r.lcd) == DisplayOn(lcd) && CursorOn(r.lcd) == CursorOn(lcd)
  {
    SetControl(lcd, BLINKON, false)
  }

  /** `blink`: blinking cursor on; display and cursor as they were. */
  function Blink(lcd: Lcd): (r: Op)
    ensures BlinkOn(r.lcd) && DisplayOn(r.lcd) == DisplayOn(lcd) && CursorOn(r.lcd) == CursorOn(lcd)
  {
    SetControl(lcd, BLINKON, true)
  }

  /** `leftToRight`: text flows left to right; autoscroll as it was. */
  function LeftToRight(lcd: Lcd): (r: Op)
    ensures EntryLeft(r.lcd) && Autoscrolling(r.lcd) == Autoscrolling(lcd)
  {
    SetMode(lcd, ENTRYLEFT, true)
  }

  /** `rightToLeft`: text flows right to left; autoscroll as it was. */
  function RightToLeft(lcd: Lcd): (r: Op)
    ensures !EntryLeft(r.lcd) && Autoscrolling(r.lcd) == Autoscrolling(lcd)
  {
    SetMode(lcd, ENTRYLEFT, false)
  }

  /** `autoscroll`: the display shifts on each character; direction as it was. */
  function Autoscroll(lcd: Lcd): (r: Op)
    ensures Autoscrolling(r.lcd) && EntryLeft(r.lcd) == EntryLeft(lcd)
  {
    SetMode(lcd, ENTRYSHIFTINCREMENT, true)
  }

  /** `noAutoscroll`: the display stays put; direction as it was. */
  function NoAutoscroll(lcd: Lcd): (r: Op)
    ensures !Autoscrolling(r.lcd) && EntryLeft(r.lcd) == EntryLeft(lcd)
  {
    SetMode(lcd, ENTRYSHIFTINCREMENT, false)
  }

  /** `scrollDisplayLeft`: shifts the whole display left; no stored flag changes. */
  function ScrollDisplayLeft(lcd: Lcd): (r: Op)
    ensures r.lcd == lcd
    ensures r.trace == Command(lcd.bus, 0x18)
  {
    Op(lcd, Command(lcd.bus, CURSORSHIFT | DISPLAYMOVE | MOVELEFT))
  }

  /** `scrollDisplayRight`: shifts the whole display right; no stored flag changes. */
  function ScrollDisplayRight(lcd: Lcd): (r: Op)
    ensures r.lcd == lcd
    ensures r.trace == Command(lcd.bus, 0x1C)
  {
    Op(lcd, Command(lcd.bus, CURSORSHIFT | DISPLAYMOVE | MOVERIGHT))
  }

  /** Data writes of `bytes`, in order. */
  function WriteAll(bus: Bus, bytes: seq<bv8>): (es: seq<Event>)
    ensures |es| == 33 * |bytes|
  {
    if |bytes| == 0 then [] else Write(bus, bytes[0]).trace + WriteAll(bus, bytes[1..])
  }

  /** The character-generator address of custom character `location` (only its low three bits count). */
  function GlyphAddress(location: bv8): (a: bv8)
    ensures a & 0x07 == 0 && a < 0x40
    ensures a >> 3 == location & 0x07
  {
    (location & 0x07) << 3
  }

  /**
   * `createChar`: points the controller at custom character `location`
   * (masked to 0..7) and writes the eight pattern rows as data; no state change.
   */
  function CreateChar(lcd: Lcd, location: bv8, charmap: seq<bv8>): (r: Op)
    requires |charmap| >= 8
    ensures r.lcd == lcd
    ensures |r.trace| == 33 * 9
    ensures r.trace[..33] == Command(lcd.bus, SETCGRAMADDR | GlyphAddress(location))
  {
    Op(lcd, Command(lcd.bus, SETCGRAMADDR | GlyphAddress(location)) + WriteAll(lcd.bus, charmap[..8]))
  }

  /** The eight default custom characters: vertical bars of growing width and blocks. */
  const DefaultCharTable: seq<bv8> := [
    0x10, 0x10, 0x10, 0x10, 0x10, 0x10, 0x10, 0x10,
    0x18, 0x18, 0x18, 0x18, 0x18, 0x18, 0x18, 0x18,
    0x1C, 0x1C, 0x1C, 0x1C, 0x1C, 0x1C, 0x1C, 0x1C,
    0x1E, 0x1E, 0x1E, 0x1E, 0x1E, 0x1E, 0x1E, 0x1E,
    0x00, 0x00, 0x00, 0x1F, 0x1F, 0x1F, 0x1F, 0x1F,
    0x00, 0x1F, 0x1F, 0x1F, 0x1F, 0x1F, 0x1F, 0x1F,
    0x00, 0x1F, 0x1F, 0x1F, 0x1F, 0x1F, 0x1F, 0x1F,
    0x00, 0x00, 0x00, 0x00, 0x00, 0x00, 0x00, 0x00 ]

  /** The pattern rows of default character `i`. */
  function DefaultGlyph(i: nat): (g: seq<bv8>)
    requires i < 8
    ensures |g| == 8
  {
    DefaultCharTable[8 * i .. 8 * i + 8]
  }

  /** `createChar` for default characters `i`..7, in order. */
  function LoadDefaultChars(lcd: Lcd, i: nat): (es: seq<Event>)
    requires i <= 8
    ensures |es| == 33 * 9 * (8 - i)
    decreases 8 - i
  {
    if i == 8 then [] else CreateChar(lcd, i as bv8, DefaultGlyph(i)).trace + LoadDefaultChars(lcd, i + 1)
  }

  /**
   * The start of `begin`: RS and enable become outputs, the data lines are
   * claimed, the controller gets its power-up wait, then RS selects the
   * instruction register and enable idles.
   */
  function PowerUp(bus: Bus): (es: seq<Event>)
    // every pin it touches becomes an output
    ensures forall k :: 0 <= k < |es| && es[k].PinMode? ==> es[k].mode == Output
    // the only levels written are the logical low of RS and of enable
    ensures forall k :: 0 <= k < |es| && es[k].DigitalWrite? ==>
              es[k].high == Drive(bus, false) && (es[k].pin == bus.pins.rs || es[k].pin == bus.pins.enable)
  {
    [PinMode(bus.pins.rs, Output), PinMode(bus.pins.enable, Output)]
    + ClaimOutputs(bus)
    + [ DelayMicroseconds(PowerUpUs),
        DigitalWrite(bus.pins.rs, Drive(bus, false)),
        DigitalWrite(bus.pins.enable, Drive(bus, false)) ]
  }

  /**
   * The 4-bit initialisation of Figure 24 of the HD44780U datasheet: the
   * nibble 3 three times, with waits of 4.5 ms, 4.5 ms and 150 us, then the
   * nibble 2 to select the 4-bit interface.
   */
  function Handshake(bus: Bus): (es: seq<Event>)
    ensures |es| == 43
  {
    Write4Bits(bus, 0x03) + [DelayMicroseconds(4500)]
    + Write4Bits(bus, 0x03) + [DelayMicroseconds(4500)]
    + Write4Bits(bus, 0x03) + [DelayMicroseconds(150)]
    + Write4Bits(bus, 0x02)
  }

  /** The function flags `begin` sends: two lines when asked for more than one; the font size is not used. */
  function BeginFunction(lcd: Lcd, lines: Byte): (f: bv8)
    ensures f & TWOLINE != 0 <==> lines > 1 || lcd.displayFunction & TWOLINE != 0
    ensures SameOutside(f, lcd.displayFunction, TWOLINE)
  {
    if lines > 1 then lcd.displayFunction | TWOLINE else lcd.displayFunction
  }

  /**
   * The part of `begin` after the handshake, for the state `lcd` it has
   * configured: sends the function flags, loads the eight default
   * characters, turns the display on (no cursor, no blink), clears it and
   * sets left-to-right entry without shift.
   */
  function Configure(lcd: Lcd): (r: Op)
    ensures r.lcd == lcd.(displayControl := DISPLAYON | CURSOROFF | BLINKOFF,
                          displayMode := ENTRYLEFT | ENTRYSHIFTDECREMENT)
  {
    var bus := lcd.bus;
    var shown := Display(lcd.(displayControl := DISPLAYON | CURSOROFF | BLINKOFF));
    var cleared := Clear(shown.lcd);
    var ready := cleared.lcd.(displayMode := ENTRYLEFT | ENTRYSHIFTDECREMENT);
    Op(ready,
       Command(bus, FUNCTIONSET | lcd.displayFunction)
       + LoadDefaultChars(lcd, 0)
       + shown.trace + cleared.trace
       + Command(bus, ENTRYMODESET | ready.displayMode))
  }

  /**
   * `begin`: records the line count and the default row offsets, runs the
   * power-up sequence and the 4-bit initialisation, then configures the
   * controller.
   */
  function Begin(lcd: Lcd, cols: Byte, lines: Byte, dotsize: Byte): (r: Op)
    ensures r.lcd.bus == lcd.bus
    ensures r.lcd.numLines == lines
    ensures r.lcd.rowOffsets == RowOffsets(0x00, 0x40, cols, 0x40 + cols)
    ensures r.lcd.displayFunction == BeginFunction(lcd, lines)
    ensures DisplayOn(r.lcd) && !CursorOn(r.lcd) && !BlinkOn(r.lcd)
    ensures EntryLeft(r.lcd) && !Autoscrolling(r.lcd)
  {
    var configured := SetRowOffsets(lcd.(displayFunction := BeginFunction(lcd, lines), numLines := lines),
                                    0x00, 0x40, 0x00 + cols, 0x40 + cols);
    var done := Configure(configured);
    Op(done.lcd, PowerUp(lcd.bus) + Handshake(lcd.bus) + done.trace)
  }
}
