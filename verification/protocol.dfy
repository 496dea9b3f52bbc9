/**
 * Byte framing on the display's 4-bit bus, as traces of pin calls.
 *
 * Before every transfer the five data lines (D4..D7 and RS) are switched to
 * outputs, and afterwards back to pulled-up inputs so that the buttons can be
 * read through them. A byte goes out as its high nibble then its low nibble,
 * each presented on D4..D7 and latched by one pulse of the enable line.
 *
 * All control and data lines may sit behind inverting drivers; the
 * `inverted` switch of the bus flips every level the driver writes, and
 * nothing else.
 */
module Protocol {
  import opened Gpio

  /** The wiring: which pins, and whether every line is driven inverted. */
  datatype Bus = Bus(pins: Pins, inverted: bool)

  /** Settle time after switching the data lines' direction. */
  const SettleUs: nat := 10

  /** Width of each half of the enable pulse. */
  const PulseUs: nat := 1

  /** Time the controller needs to take in a nibble after the pulse. */
  const ExecuteUs: nat := 100

  /** The electrical level that presents logical level `on` at the display. */
  function Drive(bus: Bus, on: bool): (high: bool)
    ensures high == on <==> !bus.inverted
  {
    on != bus.inverted
  }

  /** Bit `i` of `v`. */
  function Bit(v: bv8, i: nat): bool
    requires i < 8
  {
    (v >> i) & 1 == 1
  }

  /** `setDataLineOutput`: sets the mode of every entry of the data-pin table, in order. */
  function SetDataLineOutput(pins: Pins, m: Mode): (es: seq<Event>)
    ensures |es| == DataLineCount
    ensures forall i :: 0 <= i < DataLineCount ==> es[i] == PinMode(DataLine(pins, i), m)
  {
    [PinMode(pins.d4, m), PinMode(pins.d5, m), PinMode(pins.d6, m), PinMode(pins.d7, m), PinMode(pins.rs, m)]
  }

  /** Switch the data lines to outputs and let them settle. */
  function ClaimOutputs(bus: Bus): (es: seq<Event>)
    ensures |es| == DataLineCount + 1
    ensures es[DataLineCount] == DelayMicroseconds(SettleUs)
    ensures forall i :: 0 <= i < DataLineCount ==> es[i] == PinMode(DataLine(bus.pins, i), Output)
  {
    SetDataLineOutput(bus.pins, Output) + [DelayMicroseconds(SettleUs)]
  }

  /** Hand the data lines back to the buttons as pulled-up inputs and let them settle. */
  function ReleaseInputs(bus: Bus): (es: seq<Event>)
    ensures |es| == DataLineCount + 1
    ensures es[DataLineCount] == DelayMicroseconds(SettleUs)
    ensures forall i :: 0 <= i < DataLineCount ==> es[i] == PinMode(DataLine(bus.pins, i), InputPullup)
  {
    SetDataLineOutput(bus.pins, InputPullup) + [DelayMicroseconds(SettleUs)]
  }

  /**
   * `pulseEnable`: the enable line goes active for one microsecond and back
   * to idle, then the controller is given time to take the nibble in.
   */
  function PulseEnable(bus: Bus): (es: seq<Event>)
    ensures |es| == 6
    ensures forall i :: 0 <= i < 6 && es[i].DigitalWrite? ==> es[i].pin == bus.pins.enable
  {
    var en := bus.pins.enable;
    [ DigitalWrite(en, Drive(bus, false)), DelayMicroseconds(PulseUs),
      DigitalWrite(en, Drive(bus, true)), DelayMicroseconds(PulseUs),
      DigitalWrite(en, Drive(bus, false)), DelayMicroseconds(ExecuteUs) ]
  }

  /**
   * `write4bits`: presents bits 0..3 of `v` on D4..D7 (higher bits are not
   * looked at), then pulses enable once.
   */
  function Write4Bits(bus: Bus, v: bv8): (es: seq<Event>)
    ensures |es| == 10
    ensures forall i :: 0 <= i < 4 ==> es[i] == DigitalWrite(DataLine(bus.pins, i), Drive(bus, Bit(v, i)))
    ensures es[4..] == PulseEnable(bus)
  {
    var p := bus.pins;
    [ DigitalWrite(p.d4, Drive(bus, Bit(v, 0))),
      DigitalWrite(p.d5, Drive(bus, Bit(v, 1))),
      DigitalWrite(p.d6, Drive(bus, Bit(v, 2))),
      DigitalWrite(p.d7, Drive(bus, Bit(v, 3))) ] + PulseEnable(bus)
  }

  /**
   * `send`: selects the data register (`data`) or the instruction register
   * on RS, then sends the high nibble and the low nibble.
   */
  function Send(bus: Bus, v: bv8, data: bool): (es: seq<Event>)
    ensures |es| == 21
    ensures es[0] == DigitalWrite(bus.pins.rs, Drive(bus, data))
  {
    [DigitalWrite(bus.pins.rs, Drive(bus, data))] + Write4Bits(bus, v >> 4) + Write4Bits(bus, v)
  }

  /** `command`: one instruction byte, with the data lines claimed around it. */
  function Command(bus: Bus, v: bv8): (es: seq<Event>)
    ensures |es| == 33
    ensures es[..6] == ClaimOutputs(bus) && es[27..] == ReleaseInputs(bus)
  {
    ClaimOutputs(bus) + Send(bus, v, false) + ReleaseInputs(bus)
  }

  /** The outcome of `write`: the trace and the count it reports. */
  datatype Written = Written(trace: seq<Event>, count: nat)

  /** `write`: one data byte, with the data lines claimed around it; always reports one byte. */
  function Write(bus: Bus, v: bv8): (w: Written)
    ensures w.count == 1
    ensures |w.trace| == 33
    ensures w.trace[..6] == ClaimOutputs(bus) && w.trace[27..] == ReleaseInputs(bus)
  {
    Written(ClaimOutputs(bus) + Send(bus, v, true) + ReleaseInputs(bus), 1)
  }

  /** Only the low nibble of the argument of `write4bits` reaches the bus. */
  lemma Write4BitsLowNibbleOnly(bus: Bus, v: bv8)
    ensures Write4Bits(bus, v) == Write4Bits(bus, v & 0x0F)
  {
    assert forall i :: 0 <= i < 4 ==> Bit(v, i) == Bit(v & 0x0F, i);
  }

  /**
   * An instruction and a data byte differ on the bus only in the level of RS;
   * under the inverted wiring an instruction drives RS high.
   */
  lemma CommandAndWriteDifferOnlyInRs(bus: Bus, v: bv8)
    ensures Command(bus, v)[6] == DigitalWrite(bus.pins.rs, Drive(bus, false))
    ensures Write(bus, v).trace[6] == DigitalWrite(bus.pins.rs, Drive(bus, true))
    ensures Command(bus, v)[7..] == Write(bus, v).trace[7..]
    ensures bus.inverted ==> Command(bus, v)[6].high && !Write(bus, v).trace[6].high
  {
    var c := Send(bus, v, false);
    var d := Send(bus, v, true);
    assert c[1..] == d[1..];
    AfterFirst(ClaimOutputs(bus), c, ReleaseInputs(bus));
    AfterFirst(ClaimOutputs(bus), d, ReleaseInputs(bus));
  }

  /** What follows the first element of the middle part of a three-part trace. */
  lemma AfterFirst(a: seq<Event>, b: seq<Event>, c: seq<Event>)
    requires |b| >= 1
    ensures (a + b + c)[|a|] == b[0]
    ensures (a + b + c)[|a| + 1..] == b[1..] + c
  {
  }
}
