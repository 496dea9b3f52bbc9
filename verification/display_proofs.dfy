/**
 * What the controller receives from each display operation, and how the
 * flag operations behave when repeated or combined.
 */
module DisplayProofs {
  import opened Gpio
  import opened Commands
  import opened Protocol
  import opened Receiver
  import opened Display

  /** The data-register transfers of `bytes`, in order. */
  function DataTransfers(bytes: seq<bv8>): (ts: seq<Transfer>)
    ensures |ts| == |bytes|
    ensures forall i :: 0 <= i < |bytes| ==> ts[i] == Transfer(true, bytes[i])
  {
    seq(|bytes|, i requires 0 <= i < |bytes| => Transfer(true, bytes[i]))
  }

  /** Consecutive data writes deliver the bytes to the data register, in order. */
  lemma {:induction false} WriteAllFrames(bus: Bus, bytes: seq<bv8>)
    requires Distinct(bus.pins)
    ensures Frames(bus, WriteAll(bus, bytes), DataTransfers(bytes))
    decreases |bytes|
  {
    if |bytes| == 0 {
      QuietFrames(bus, []);
      assert DataTransfers(bytes) == [];
    } else {
      WriteFrames(bus, bytes[0]);
      WriteAllFrames(bus, bytes[1..]);
      FramesAppend(bus, Write(bus, bytes[0]).trace, [Transfer(true, bytes[0])],
                   WriteAll(bus, bytes[1..]), DataTransfers(bytes[1..]));
      assert [Transfer(true, bytes[0])] + DataTransfers(bytes[1..]) == DataTransfers(bytes);
    }
  }

  /** The instruction that opens the upload of custom character `location`. */
  function GlyphSelect(location: bv8): Transfer
  {
    Transfer(false, SETCGRAMADDR | GlyphAddress(location))
  }

  /**
   * `createChar`: the controller receives one set-CGRAM-address instruction
   * for slot `location & 7` (address `slot * 8`), then the eight pattern rows
   * as data, in array order.
   */
  lemma CreateCharDelivers(lcd: Lcd, location: bv8, charmap: seq<bv8>)
    requires Distinct(lcd.bus.pins) && |charmap| >= 8
    ensures Frames(lcd.bus, CreateChar(lcd, location, charmap).trace,
                   [GlyphSelect(location)] + DataTransfers(charmap[..8]))
    ensures Decode(lcd.bus, CreateChar(lcd, location, charmap).trace)
            == [Transfer(false, 0x40 | ((location & 7) << 3))] + DataTransfers(charmap[..8])
  {
    var bus := lcd.bus;
    CommandFrames(bus, SETCGRAMADDR | GlyphAddress(location));
    WriteAllFrames(bus, charmap[..8]);
    FramesAppend(bus, Command(bus, SETCGRAMADDR | GlyphAddress(location)), [GlyphSelect(location)],
                 WriteAll(bus, charmap[..8]), DataTransfers(charmap[..8]));
    FramesDecode(bus, CreateChar(lcd, location, charmap).trace, [GlyphSelect(location)] + DataTransfers(charmap[..8]));
  }

  /**
   * `setCursor`: the controller receives one set-DDRAM-address instruction
   * whose address is the column plus the clamped row's offset, modulo 256.
   */
  lemma SetCursorDelivers(lcd: Lcd, col: Byte, row: Byte)
    requires Distinct(lcd.bus.pins) && lcd.numLines >= 1
    ensures Decode(lcd.bus, SetCursor(lcd, col, row).trace) == [Transfer(false, SETDDRAMADDR | CursorAddress(lcd, col, row) as bv8)]
    ensures var r := EffectiveRow(lcd.numLines, row);
            r == if row < MaxLines && row < lcd.numLines then row
                 else if lcd.numLines < MaxLines then lcd.numLines - 1 else MaxLines - 1
  {
    CommandFrames(lcd.bus, SETDDRAMADDR | CursorAddress(lcd, col, row) as bv8);
  }

  /**
   * After `setRowOffsets`, `setCursor` addresses column `col` of the clamped
   * row relative to the start address just set for that row.
   */
  lemma SetCursorAfterRowOffsets(lcd: Lcd, o0: int, o1: int, o2: int, o3: int, col: Byte, row: Byte)
    requires Distinct(lcd.bus.pins) && lcd.numLines >= 1
    ensures var r := EffectiveRow(lcd.numLines, row);
            Decode(lcd.bus, SetCursor(SetRowOffsets(lcd, o0, o1, o2, o3), col, row).trace)
            == [Transfer(false, SETDDRAMADDR | ((col + [o0, o1, o2, o3][r]) % 256) as bv8)]
  {
    var l := SetRowOffsets(lcd, o0, o1, o2, o3);
    var r := EffectiveRow(lcd.numLines, row);
    assert Offset(l.rowOffsets, r) == [o0, o1, o2, o3][r];
    SetCursorDelivers(l, col, row);
  }

  /** On a two-line display, asking for row 5 addresses row 1. */
  lemma SetCursorClampExample(lcd: Lcd, col: Byte)
    requires lcd.numLines == 2
    ensures EffectiveRow(lcd.numLines, 5) == 1
    ensures CursorAddress(lcd, col, 5) == (col + lcd.rowOffsets.r1) % 256
  {
  }

  /** A flag byte with the bits `flag` turned on or off. */
  function Toggled(c: bv8, flag: bv8, on: bool): bv8
  {
    if on then c | flag else c & !flag
  }

  /** Turning bits on (or off) twice is turning them on (or off) once. */
  lemma ToggledIdempotent(c: bv8, flag: bv8, on: bool)
    ensures Toggled(Toggled(c, flag, on), flag, on) == Toggled(c, flag, on)
  {
  }

  lemma SetSetCommute(c: bv8, f1: bv8, f2: bv8)
    ensures Toggled(Toggled(c, f1, true), f2, true) == Toggled(Toggled(c, f2, true), f1, true)
  {
  }

  lemma SetClearCommute(c: bv8, f1: bv8, f2: bv8)
    requires f1 & f2 == 0
    ensures Toggled(Toggled(c, f1, true), f2, false) == Toggled(Toggled(c, f2, false), f1, true)
  {
  }

  lemma ClearClearCommute(c: bv8, f1: bv8, f2: bv8)
    ensures Toggled(Toggled(c, f1, false), f2, false) == Toggled(Toggled(c, f2, false), f1, false)
  {
  }

  lemma AndCommutes(a: bv8, b: bv8)
    ensures a & b == b & a
  {
  }

  /** Toggles of disjoint bits commute. */
  lemma ToggledCommutes(c: bv8, f1: bv8, on1: bool, f2: bv8, on2: bool)
    requires f1 & f2 == 0
    ensures Toggled(Toggled(c, f1, on1), f2, on2) == Toggled(Toggled(c, f2, on2), f1, on1)
  {
    if on1 && on2 {
      SetSetCommute(c, f1, f2);
    } else if on1 {
      SetClearCommute(c, f1, f2);
    } else if on2 {
      AndCommutes(f1, f2);
      SetClearCommute(c, f2, f1);
    } else {
      ClearClearCommute(c, f1, f2);
    }
  }

  /** The state a display-control toggle leaves. */
  lemma SetControlState(lcd: Lcd, flag: bv8, on: bool)
    ensures SetControl(lcd, flag, on).lcd == lcd.(displayControl := Toggled(lcd.displayControl, flag, on))
  {
  }

  /** The state an entry-mode toggle leaves. */
  lemma SetModeState(lcd: Lcd, flag: bv8, on: bool)
    ensures SetMode(lcd, flag, on).lcd == lcd.(displayMode := Toggled(lcd.displayMode, flag, on))
  {
  }

  /** Repeating a display-control toggle changes nothing more and sends the same instruction again. */
  lemma SetControlIdempotent(lcd: Lcd, flag: bv8, on: bool)
    ensures SetControl(SetControl(lcd, flag, on).lcd, flag, on) == SetControl(lcd, flag, on)
  {
    var once := SetControl(lcd, flag, on).lcd;
    SetControlState(lcd, flag, on);
    SetControlState(once, flag, on);
    ToggledIdempotent(lcd.displayControl, flag, on);
    assert SetControl(once, flag, on).lcd == once;
  }

  /** Repeating an entry-mode toggle changes nothing more and sends the same instruction again. */
  lemma SetModeIdempotent(lcd: Lcd, flag: bv8, on: bool)
    ensures SetMode(SetMode(lcd, flag, on).lcd, flag, on) == SetMode(lcd, flag, on)
  {
    var once := SetMode(lcd, flag, on).lcd;
    SetModeState(lcd, flag, on);
    SetModeState(once, flag, on);
    ToggledIdempotent(lcd.displayMode, flag, on);
    assert SetMode(once, flag, on).lcd == once;
  }

  /** Toggles of different display-control bits commute in the state they leave. */
  lemma SetControlCommutes(lcd: Lcd, f1: bv8, on1: bool, f2: bv8, on2: bool)
    requires f1 & f2 == 0
    ensures SetControl(SetControl(lcd, f1, on1).lcd, f2, on2).lcd
            == SetControl(SetControl(lcd, f2, on2).lcd, f1, on1).lcd
  {
    var a := SetControl(lcd, f1, on1).lcd;
    var b := SetControl(lcd, f2, on2).lcd;
    SetControlState(lcd, f1, on1);
    SetControlState(lcd, f2, on2);
    SetControlState(a, f2, on2);
    SetControlState(b, f1, on1);
    ToggledCommutes(lcd.displayControl, f1, on1, f2, on2);
  }

  /**
   * Each flag operation delivers exactly one instruction: its family's code
   * with the complete new flag byte.
   */
  lemma TogglesDeliver(lcd: Lcd, flag: bv8, on: bool)
    requires Distinct(lcd.bus.pins)
    ensures Decode(lcd.bus, SetControl(lcd, flag, on).trace)
            == [Transfer(false, DISPLAYCONTROL | SetControl(lcd, flag, on).lcd.displayControl)]
    ensures Decode(lcd.bus, SetMode(lcd, flag, on).trace)
            == [Transfer(false, ENTRYMODESET | SetMode(lcd, flag, on).lcd.displayMode)]
  {
    CommandFrames(lcd.bus, DISPLAYCONTROL | SetControl(lcd, flag, on).lcd.displayControl);
    CommandFrames(lcd.bus, ENTRYMODESET | SetMode(lcd, flag, on).lcd.displayMode);
  }

  /** The scroll operations deliver the cursor-shift instruction with display-move set, left or right. */
  lemma ScrollsDeliver(lcd: Lcd)
    requires Distinct(lcd.bus.pins)
    ensures Decode(lcd.bus, ScrollDisplayLeft(lcd).trace) == [Transfer(false, CURSORSHIFT | DISPLAYMOVE)]
    ensures Decode(lcd.bus, ScrollDisplayRight(lcd).trace) == [Transfer(false, CURSORSHIFT | DISPLAYMOVE | MOVERIGHT)]
  {
    CommandFrames(lcd.bus, 0x18);
    CommandFrames(lcd.bus, 0x1C);
  }

  /** `clear` and `home` deliver their single instruction. */
  lemma ClearHomeDeliver(lcd: Lcd)
    requires Distinct(lcd.bus.pins)
    ensures Frames(lcd.bus, Clear(lcd).trace, [Transfer(false, CLEARDISPLAY)])
    ensures Frames(lcd.bus, Home(lcd).trace, [Transfer(false, RETURNHOME)])
  {
    var bus := lcd.bus;
    QuietFrames(bus, [DelayMicroseconds(SlowCommandUs)]);
    CommandFrames(bus, CLEARDISPLAY);
    FramesAppend(bus, Command(bus, CLEARDISPLAY), [Transfer(false, CLEARDISPLAY)], [DelayMicroseconds(SlowCommandUs)], []);
    assert [Transfer(false, CLEARDISPLAY)] + [] == [Transfer(false, CLEARDISPLAY)];
    CommandFrames(bus, RETURNHOME);
    FramesAppend(bus, Command(bus, RETURNHOME), [Transfer(false, RETURNHOME)], [DelayMicroseconds(SlowCommandUs)], []);
    assert [Transfer(false, RETURNHOME)] + [] == [Transfer(false, RETURNHOME)];
  }
}
