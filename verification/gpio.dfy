/**
 * The platform's pin primitives, seen from the driver as an event trace.
 *
 * The driver never reads anything back from the display; everything it does
 * to the bus is one of three calls (set a pin's mode, drive a pin's level,
 * busy-wait some microseconds). A display operation is modelled as the list
 * of those calls, in order.
 */
module Gpio {

  /**
   * An unsigned 8-bit quantity, as the driver's `uint8_t` fields and
   * arguments, used where the driver does arithmetic and comparisons: pin
   * numbers, button readings and counters, line counts, cursor columns.
   * Bytes the driver only combines with bit operations (instruction codes
   * and flag bytes) are `bv8` instead; `as bv8` marks where an arithmetic
   * byte becomes an instruction operand (a cursor address, a glyph slot).
   */
  type Byte = x: int | 0 <= x < 256

  /** A pin number, as handed to the platform's pin functions. */
  type Pin = Byte

  /** The two pin modes the driver uses. */
  datatype Mode = Output | InputPullup

  /** One call into the platform, in the order the driver makes it. */
  datatype Event =
    | PinMode(pin: Pin, mode: Mode)
    | DigitalWrite(pin: Pin, high: bool)
    | DelayMicroseconds(us: nat)

  /**
   * The pins given at construction: register select, enable strobe and the
   * four data lines D4..D7.
   */
  datatype Pins = Pins(rs: Pin, enable: Pin, d4: Pin, d5: Pin, d6: Pin, d7: Pin)

  /** Number of lines in the driver's data-pin table (D4..D7 and RS). */
  const DataLineCount := 5

  /**
   * Entry `i` of the driver's data-pin table: D4..D7, then RS, which doubles
   * as the input of the fifth button.
   */
  function DataLine(p: Pins, i: nat): Pin
    requires i < DataLineCount
  {
    match i
    case 0 => p.d4
    case 1 => p.d5
    case 2 => p.d6
    case 3 => p.d7
    case _ => p.rs
  }

  /** No two control or data lines share a pin number. */
  predicate Distinct(p: Pins)
  {
    && p.rs != p.enable
    && p.rs != p.d4 && p.rs != p.d5 && p.rs != p.d6 && p.rs != p.d7
    && p.enable != p.d4 && p.enable != p.d5 && p.enable != p.d6 && p.enable != p.d7
    && p.d4 != p.d5 && p.d4 != p.d6 && p.d4 != p.d7
    && p.d5 != p.d6 && p.d5 != p.d7
    && p.d6 != p.d7
  }

  /** The busy-wait durations of a trace, in order. */
  function Delays(es: seq<Event>): (ds: seq<nat>)
    ensures |ds| <= |es|
  {
    if |es| == 0 then []
    else (if es[0].DelayMicroseconds? then [es[0].us] else []) + Delays(es[1..])
  }

  /** Delays of a concatenation are the concatenation of the delays. */
  lemma {:induction false} DelaysAppend(a: seq<Event>, b: seq<Event>)
    ensures Delays(a + b) == Delays(a) + Delays(b)
    decreases |a|
  {
    if |a| == 0 {
      assert a + b == b;
    } else {
      var head := if a[0].DelayMicroseconds? then [a[0].us] else [];
      assert (a + b)[0] == a[0];
      assert (a + b)[1..] == a[1..] + b;
      DelaysAppend(a[1..], b);
      assert Delays(a + b) == head + Delays(a[1..] + b);
      assert Delays(a) == head + Delays(a[1..]);
    }
  }
}
