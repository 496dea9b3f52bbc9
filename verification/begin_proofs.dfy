/**
 * What `begin` delivers to the controller: the 4-bit initialisation
 * handshake, then every instruction and data byte of the set-up, in order,
 * and the waits it leaves between the first nibbles.
 */
module BeginProofs {
  import opened Gpio
  import opened Commands
  import opened Protocol
  import opened Receiver
  import opened Display
  import opened DisplayProofs

  /** The four nibbles of the initialisation handshake: 3, 3, 3, then 2, all to the instruction register. */
  const HandshakeNibbles: seq<Nibble> := [Nibble(false, 3), Nibble(false, 3), Nibble(false, 3), Nibble(false, 2)]

  /** The transfers that upload default characters `i`..7, in order. */
  function DefaultCharTransfers(i: nat): (ts: seq<Transfer>)
    requires i <= 8
    ensures |ts| == 9 * (8 - i)
    decreases 8 - i
  {
    if i == 8 then []
    else [GlyphSelect(i as bv8)] + DataTransfers(DefaultGlyph(i)) + DefaultCharTransfers(i + 1)
  }

  /**
   * The byte transfers of `begin` after the handshake, for function flags
   * `fn`: function set, the eight default characters, display on without
   * cursor or blink, clear, and left-to-right entry without shift.
   */
  function SetupTransfers(fn: bv8): seq<Transfer>
  {
    [Transfer(false, FUNCTIONSET | fn)]
    + DefaultCharTransfers(0)
    + [Transfer(false, 0x0C), Transfer(false, CLEARDISPLAY), Transfer(false, 0x06)]
  }

  /** Uploading default characters `i`..7 carries exactly their transfers. */
  lemma {:induction false} LoadDefaultFrames(lcd: Lcd, i: nat)
    requires Distinct(lcd.bus.pins) && i <= 8
    ensures Frames(lcd.bus, LoadDefaultChars(lcd, i), DefaultCharTransfers(i))
    decreases 8 - i
  {
    if i == 8 {
      QuietFrames(lcd.bus, []);
    } else {
      CreateCharDelivers(lcd, i as bv8, DefaultGlyph(i));
      assert DefaultGlyph(i)[..8] == DefaultGlyph(i);
      LoadDefaultFrames(lcd, i + 1);
      FramesAppend(lcd.bus, CreateChar(lcd, i as bv8, DefaultGlyph(i)).trace,
                   [GlyphSelect(i as bv8)] + DataTransfers(DefaultGlyph(i)),
                   LoadDefaultChars(lcd, i + 1), DefaultCharTransfers(i + 1));
    }
  }

  /**
   * The power-up part of `begin` moves no nibble: pin directions and the
   * power-up wait carry nothing, and the final writes select the
   * instruction register and leave enable idle.
   */
  lemma PowerUpSelectsInstructions(bus: Bus, rx: Rx)
    requires Distinct(bus.pins) && !rx.e
    ensures Run(bus, rx, PowerUp(bus)) == rx.(rs := false)
  {
    var quiet := [PinMode(bus.pins.rs, Output), PinMode(bus.pins.enable, Output)]
                 + ClaimOutputs(bus) + [DelayMicroseconds(PowerUpUs)];
    var rsLow := DigitalWrite(bus.pins.rs, Drive(bus, false));
    var enLow := DigitalWrite(bus.pins.enable, Drive(bus, false));
    assert PowerUp(bus) == quiet + ([rsLow] + [enLow]);
    RunAppend(bus, rx, quiet, [rsLow] + [enLow]);
    RunQuiet(bus, rx, quiet);
    RunCons(bus, rx, rsLow, [enLow]);
    var r1 := Apply(bus, rx, rsLow);
    assert r1 == rx.(rs := false);
    RunCons(bus, r1, enLow, []);
    assert [enLow] + [] == [enLow];
  }

  /** One nibble of the handshake, followed by any trace. */
  lemma NibbleThen(bus: Bus, rx: Rx, v: bv8, rest: seq<Event>)
    requires Distinct(bus.pins) && !rx.e
    ensures Run(bus, rx, Write4Bits(bus, v) + rest)
            == Run(bus, rx.(d4 := Bit(v, 0), d5 := Bit(v, 1), d6 := Bit(v, 2), d7 := Bit(v, 3),
                            got := rx.got + [Nibble(rx.rs, v & 0x0F)]), rest)
  {
    RunAppend(bus, rx, Write4Bits(bus, v), rest);
    Write4BitsLatches(bus, rx, v);
  }

  /** A wait, followed by any trace, leaves the controller's view alone. */
  lemma WaitThen(bus: Bus, rx: Rx, us: nat, rest: seq<Event>)
    ensures Run(bus, rx, [DelayMicroseconds(us)] + rest) == Run(bus, rx, rest)
  {
    RunCons(bus, rx, DelayMicroseconds(us), rest);
  }

  /**
   * The handshake, with the instruction register selected and enable idle,
   * latches the nibbles 3, 3, 3, 2 and nothing else.
   */
  lemma {:induction false} HandshakeLatches(bus: Bus, rx: Rx)
    requires Distinct(bus.pins) && !rx.e && !rx.rs
    ensures !Run(bus, rx, Handshake(bus)).e && !Run(bus, rx, Handshake(bus)).rs
    ensures Run(bus, rx, Handshake(bus)).got == rx.got + HandshakeNibbles
  {
    var w3 := Write4Bits(bus, 0x03);
    var w2 := Write4Bits(bus, 0x02);
    var d1 := DelayMicroseconds(4500);
    var d3 := DelayMicroseconds(150);
    assert Handshake(bus) == w3 + ([d1] + (w3 + ([d1] + (w3 + ([d3] + w2)))));
    NibbleThen(bus, rx, 0x03, [d1] + (w3 + ([d1] + (w3 + ([d3] + w2)))));
    var r1 := rx.(d4 := true, d5 := true, d6 := false, d7 := false, got := rx.got + [Nibble(false, 3)]);
    WaitThen(bus, r1, 4500, w3 + ([d1] + (w3 + ([d3] + w2))));
    NibbleThen(bus, r1, 0x03, [d1] + (w3 + ([d3] + w2)));
    var r2 := r1.(got := r1.got + [Nibble(false, 3)]);
    WaitThen(bus, r2, 4500, w3 + ([d3] + w2));
    NibbleThen(bus, r2, 0x03, [d3] + w2);
    var r3 := r2.(got := r2.got + [Nibble(false, 3)]);
    WaitThen(bus, r3, 150, w2);
    Write4BitsLatches(bus, r3, 0x02);
    assert rx.got + [Nibble(false, 3)] + [Nibble(false, 3)] + [Nibble(false, 3)] + [Nibble(false, 2)]
           == rx.got + HandshakeNibbles;
  }

  /**
   * `es` changes no pin's direction and writes only the data lines and
   * enable, so RS keeps whatever level it had.
   */
  predicate KeepsRs(bus: Bus, es: seq<Event>)
  {
    forall k :: 0 <= k < |es| ==>
      !es[k].PinMode?
      && (es[k].DigitalWrite? ==>
            es[k].pin in [bus.pins.d4, bus.pins.d5, bus.pins.d6, bus.pins.d7, bus.pins.enable])
  }

  /** Traces that keep RS, one after the other, keep RS. */
  lemma KeepsRsAppend(bus: Bus, a: seq<Event>, b: seq<Event>)
    requires KeepsRs(bus, a) && KeepsRs(bus, b)
    ensures KeepsRs(bus, a + b)
  {
    forall k | 0 <= k < |a + b|
      ensures !(a + b)[k].PinMode?
      ensures (a + b)[k].DigitalWrite? ==>
                (a + b)[k].pin in [bus.pins.d4, bus.pins.d5, bus.pins.d6, bus.pins.d7, bus.pins.enable]
    {
      if k < |a| {
        assert (a + b)[k] == a[k];
      } else {
        assert (a + b)[k] == b[k - |a|];
      }
    }
  }

  /** A nibble transfer keeps RS. */
  lemma NibbleKeepsRs(bus: Bus, v: bv8)
    ensures KeepsRs(bus, Write4Bits(bus, v))
  {
    var es := Write4Bits(bus, v);
    forall k | 0 <= k < |es|
      ensures !es[k].PinMode?
      ensures es[k].DigitalWrite? ==>
                es[k].pin in [bus.pins.d4, bus.pins.d5, bus.pins.d6, bus.pins.d7, bus.pins.enable]
    {
      if k >= 4 {
        assert es[k] == PulseEnable(bus)[k - 4];
      }
    }
  }

  /**
   * The handshake changes no pin's direction and never writes RS, so the
   * nibbles all go to the register the power-up selected.
   */
  lemma HandshakeKeepsRs(bus: Bus)
    ensures KeepsRs(bus, Handshake(bus))
  {
    var w3 := Write4Bits(bus, 0x03);
    var w2 := Write4Bits(bus, 0x02);
    NibbleKeepsRs(bus, 0x03);
    NibbleKeepsRs(bus, 0x02);
    assert KeepsRs(bus, [DelayMicroseconds(4500)]);
    assert KeepsRs(bus, [DelayMicroseconds(150)]);
    KeepsRsAppend(bus, w3, [DelayMicroseconds(4500)]);
    KeepsRsAppend(bus, w3 + [DelayMicroseconds(4500)], w3);
    KeepsRsAppend(bus, w3 + [DelayMicroseconds(4500)] + w3, [DelayMicroseconds(4500)]);
    KeepsRsAppend(bus, w3 + [DelayMicroseconds(4500)] + w3 + [DelayMicroseconds(4500)], w3);
    KeepsRsAppend(bus, w3 + [DelayMicroseconds(4500)] + w3 + [DelayMicroseconds(4500)] + w3, [DelayMicroseconds(150)]);
    KeepsRsAppend(bus, w3 + [DelayMicroseconds(4500)] + w3 + [DelayMicroseconds(4500)] + w3 + [DelayMicroseconds(150)], w2);
  }

  /** Five framed traces in a row carry their five transfer lists in a row. */
  lemma FramesAppend5(bus: Bus, a: seq<Event>, ta: seq<Transfer>, b: seq<Event>, tb: seq<Transfer>,
                      c: seq<Event>, tc: seq<Transfer>, d: seq<Event>, td: seq<Transfer>,
                      e: seq<Event>, te: seq<Transfer>)
    requires Frames(bus, a, ta) && Frames(bus, b, tb) && Frames(bus, c, tc)
    requires Frames(bus, d, td) && Frames(bus, e, te)
    ensures Frames(bus, a + b + c + d + e, ta + tb + tc + td + te)
  {
    FramesAppend(bus, a, ta, b, tb);
    FramesAppend(bus, a + b, ta + tb, c, tc);
    FramesAppend(bus, a + b + c, ta + tb + tc, d, td);
    FramesAppend(bus, a + b + c + d, ta + tb + tc + td, e, te);
  }

  /** Turning the display on from `begin` sends display control 0x0C. */
  lemma ShowFrames(lcd: Lcd)
    requires Distinct(lcd.bus.pins)
    ensures Display.Display(lcd.(displayControl := DISPLAYON | CURSOROFF | BLINKOFF)).lcd.displayControl == 0x04
    ensures Frames(lcd.bus, Display.Display(lcd.(displayControl := DISPLAYON | CURSOROFF | BLINKOFF)).trace,
                   [Transfer(false, 0x0C)])
  {
    CommandFrames(lcd.bus, 0x0C);
  }

  /** The configuration part of `begin`, piece by piece. */
  lemma ConfigureTrace(lcd: Lcd)
    ensures var shown := Display.Display(lcd.(displayControl := DISPLAYON | CURSOROFF | BLINKOFF));
            Configure(lcd).trace
            == Command(lcd.bus, FUNCTIONSET | lcd.displayFunction) + LoadDefaultChars(lcd, 0)
               + shown.trace + Clear(shown.lcd).trace + Command(lcd.bus, 0x06)
  {
  }

  /** The configuration part of `begin` carries exactly `SetupTransfers` of the configured function flags. */
  lemma ConfigureFrames(lcd: Lcd)
    requires Distinct(lcd.bus.pins)
    ensures Frames(lcd.bus, Configure(lcd).trace, SetupTransfers(lcd.displayFunction))
  {
    ConfigureTrace(lcd);
    ConfigurePartsFrame(lcd);
    SetupTransfersSplit(lcd.displayFunction);
  }

  /** The pieces of the configuration part, each framed, framed together. */
  lemma ConfigurePartsFrame(lcd: Lcd)
    requires Distinct(lcd.bus.pins)
    ensures var shown := Display.Display(lcd.(displayControl := DISPLAYON | CURSOROFF | BLINKOFF));
            Frames(lcd.bus,
                   Command(lcd.bus, FUNCTIONSET | lcd.displayFunction) + LoadDefaultChars(lcd, 0)
                   + shown.trace + Clear(shown.lcd).trace + Command(lcd.bus, 0x06),
                   [Transfer(false, FUNCTIONSET | lcd.displayFunction)] + DefaultCharTransfers(0)
                   + [Transfer(false, 0x0C)] + [Transfer(false, CLEARDISPLAY)] + [Transfer(false, 0x06)])
  {
    var bus := lcd.bus;
    var shown := Display.Display(lcd.(displayControl := DISPLAYON | CURSOROFF | BLINKOFF));
    CommandFrames(bus, FUNCTIONSET | lcd.displayFunction);
    LoadDefaultFrames(lcd, 0);
    ShowFrames(lcd);
    ClearHomeDeliver(shown.lcd);
    CommandFrames(bus, 0x06);
    FramesAppend5(bus, Command(bus, FUNCTIONSET | lcd.displayFunction), [Transfer(false, FUNCTIONSET | lcd.displayFunction)],
                  LoadDefaultChars(lcd, 0), DefaultCharTransfers(0),
                  shown.trace, [Transfer(false, 0x0C)],
                  Clear(shown.lcd).trace, [Transfer(false, CLEARDISPLAY)],
                  Command(bus, 0x06), [Transfer(false, 0x06)]);
  }

  /** `SetupTransfers`, piece by piece. */
  lemma SetupTransfersSplit(fn: bv8)
    ensures SetupTransfers(fn)
            == [Transfer(false, FUNCTIONSET | fn)] + DefaultCharTransfers(0)
               + [Transfer(false, 0x0C)] + [Transfer(false, CLEARDISPLAY)] + [Transfer(false, 0x06)]
  {
  }

  /**
   * `begin` as the controller sees it: from an idle enable line, the
   * handshake nibbles 3, 3, 3, 2 to the instruction register, then the
   * function flags, the eight default characters, display on, clear and the
   * entry mode, each byte as its high nibble then its low nibble; enable
   * ends idle.
   */
  lemma BeginDelivers(lcd: Lcd, cols: Byte, lines: Byte, dotsize: Byte, rx: Rx)
    requires Distinct(lcd.bus.pins) && !rx.e
    ensures !Run(lcd.bus, rx, Begin(lcd, cols, lines, dotsize).trace).e
    ensures Run(lcd.bus, rx, Begin(lcd, cols, lines, dotsize).trace).got
            == rx.got + HandshakeNibbles + Split(SetupTransfers(BeginFunction(lcd, lines)))
  {
    var bus := lcd.bus;
    var configured := SetRowOffsets(lcd.(displayFunction := BeginFunction(lcd, lines), numLines := lines),
                                    0x00, 0x40, 0x00 + cols, 0x40 + cols);
    var setup := Configure(configured).trace;
    assert Begin(lcd, cols, lines, dotsize).trace == PowerUp(bus) + Handshake(bus) + setup;
    RunAppend(bus, rx, PowerUp(bus) + Handshake(bus), setup);
    RunAppend(bus, rx, PowerUp(bus), Handshake(bus));
    PowerUpSelectsInstructions(bus, rx);
    HandshakeLatches(bus, rx.(rs := false));
    var r2 := Run(bus, rx.(rs := false), Handshake(bus));
    ConfigureFrames(configured);
    assert Carries(bus, r2, setup, SetupTransfers(BeginFunction(lcd, lines)));
  }

  /** The waits of a nibble transfer: both halves of the enable pulse, then the execution time. */
  lemma Write4BitsWaits(bus: Bus, v: bv8)
    ensures Delays(Write4Bits(bus, v)) == [PulseUs, PulseUs, ExecuteUs]
  {
    var es := Write4Bits(bus, v);
    assert Delays(es[9..]) == [ExecuteUs];
    assert Delays(es[8..]) == [ExecuteUs];
    assert Delays(es[7..]) == [PulseUs, ExecuteUs];
    assert Delays(es[6..]) == [PulseUs, ExecuteUs];
    assert Delays(es[5..]) == [PulseUs, PulseUs, ExecuteUs];
    assert Delays(es[4..]) == [PulseUs, PulseUs, ExecuteUs];
    assert Delays(es[3..]) == [PulseUs, PulseUs, ExecuteUs];
    assert Delays(es[2..]) == [PulseUs, PulseUs, ExecuteUs];
    assert Delays(es[1..]) == [PulseUs, PulseUs, ExecuteUs];
  }

  /** The waits of the power-up part of `begin`: the settle time, then at least 40 ms for the supply. */
  lemma PowerUpWaits(bus: Bus)
    ensures Delays(PowerUp(bus)) == [SettleUs, PowerUpUs]
  {
    var es := PowerUp(bus);
    assert Delays(es[10..]) == [];
    assert Delays(es[9..]) == [];
    assert Delays(es[8..]) == [PowerUpUs];
    assert Delays(es[7..]) == [SettleUs, PowerUpUs];
    assert Delays(es[6..]) == [SettleUs, PowerUpUs];
    assert Delays(es[5..]) == [SettleUs, PowerUpUs];
    assert Delays(es[4..]) == [SettleUs, PowerUpUs];
    assert Delays(es[3..]) == [SettleUs, PowerUpUs];
    assert Delays(es[2..]) == [SettleUs, PowerUpUs];
    assert Delays(es[1..]) == [SettleUs, PowerUpUs];
  }

  /** The waits of the handshake: each nibble's own, with 4.5 ms, 4.5 ms and 150 us after the first three. */
  lemma HandshakeWaits(bus: Bus)
    ensures Delays(Handshake(bus))
            == [1, 1, 100] + [4500] + [1, 1, 100] + [4500] + [1, 1, 100] + [150] + [1, 1, 100]
  {
    var w3 := Write4Bits(bus, 0x03);
    var w2 := Write4Bits(bus, 0x02);
    var d1 := [DelayMicroseconds(4500)];
    var d3 := [DelayMicroseconds(150)];
    Write4BitsWaits(bus, 0x03);
    Write4BitsWaits(bus, 0x02);
    assert Delays(d1) == [4500];
    assert Delays(d3) == [150];
    DelaysAppend(w3, d1);
    DelaysAppend(w3 + d1, w3);
    DelaysAppend(w3 + d1 + w3, d1);
    DelaysAppend(w3 + d1 + w3 + d1, w3);
    DelaysAppend(w3 + d1 + w3 + d1 + w3, d3);
    DelaysAppend(w3 + d1 + w3 + d1 + w3 + d3, w2);
  }

  /**
   * The waits from power-up to the end of the handshake: the settle time
   * and 50 ms, then 4.5 ms after the first and second nibble 3 and 150 us
   * after the third, each nibble itself taking the pulse and execution times.
   */
  lemma BeginWaits(bus: Bus)
    ensures Delays(PowerUp(bus) + Handshake(bus))
            == [SettleUs, 50000] + [1, 1, 100] + [4500] + [1, 1, 100] + [4500] + [1, 1, 100] + [150] + [1, 1, 100]
  {
    PowerUpWaits(bus);
    HandshakeWaits(bus);
    DelaysAppend(PowerUp(bus), Handshake(bus));
  }

  /** The font-size argument of `begin` changes nothing: neither the state nor a single pin call. */
  lemma BeginIgnoresDotsize(lcd: Lcd, cols: Byte, lines: Byte, dotsize1: Byte, dotsize2: Byte)
    ensures Begin(lcd, cols, lines, dotsize1) == Begin(lcd, cols, lines, dotsize2)
  {
  }

  /**
   * On a freshly constructed driver, `begin` sends function set 0x28 (4-bit,
   * two lines, 5x8 font) when asked for more than one line and 0x20 (one
   * line) otherwise.
   */
  lemma FreshFunctionSet(rs: Pin, enable: Pin, d4: Pin, d5: Pin, d6: Pin, d7: Pin, inverted: bool,
                         prior: Lcd, lines: Byte)
    ensures var lcd := Construct(rs, enable, d4, d5, d6, d7, inverted, prior);
            FUNCTIONSET | BeginFunction(lcd, lines) == if lines > 1 then 0x28 else 0x20
  {
  }
}
