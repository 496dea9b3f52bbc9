/**
 * Instruction codes and flag bits of the HD44780 controller, as listed in
 * Table 6 of the Hitachi HD44780U datasheet. The driver combines them with
 * bitwise or; the names follow the driver's `LCDB_` prefix.
 */
module Commands {

  // Instructions
  const CLEARDISPLAY: bv8 := 0x01
  const RETURNHOME: bv8 := 0x02
  const ENTRYMODESET: bv8 := 0x04
  const DISPLAYCONTROL: bv8 := 0x08
  const CURSORSHIFT: bv8 := 0x10
  const FUNCTIONSET: bv8 := 0x20
  const SETCGRAMADDR: bv8 := 0x40
  const SETDDRAMADDR: bv8 := 0x80

  // Entry mode flags
  const ENTRYRIGHT: bv8 := 0x00
  const ENTRYLEFT: bv8 := 0x02
  const ENTRYSHIFTINCREMENT: bv8 := 0x01
  const ENTRYSHIFTDECREMENT: bv8 := 0x00

  // Display control flags
  const DISPLAYON: bv8 := 0x04
  const DISPLAYOFF: bv8 := 0x00
  const CURSORON: bv8 := 0x02
  const CURSOROFF: bv8 := 0x00
  const BLINKON: bv8 := 0x01
  const BLINKOFF: bv8 := 0x00

  // Cursor / display shift flags
  const DISPLAYMOVE: bv8 := 0x08
  const CURSORMOVE: bv8 := 0x00
  const MOVERIGHT: bv8 := 0x04
  const MOVELEFT: bv8 := 0x00

  // Function set flags
  const EIGHTBITMODE: bv8 := 0x10
  const FOURBITMODE: bv8 := 0x00
  const TWOLINE: bv8 := 0x08
  const ONELINE: bv8 := 0x00
  const DOTS5X10: bv8 := 0x04
  const DOTS5X8: bv8 := 0x00
}
