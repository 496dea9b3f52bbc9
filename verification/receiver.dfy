/**
 * The display controller's side of the 4-bit bus, as an independent
 * reference for the driver's framing.
 *
 * The controller sees each line at the level the driver writes, flipped when
 * the wiring is inverted. On every falling edge of the enable line it latches
 * the nibble on D4..D7 together with the register selected by RS (section
 * "Interfacing to the MPU" and the bus timing figures of the HD44780U
 * datasheet). In 4-bit mode two latched nibbles, high first, make one byte.
 * The model assumes that pin-mode changes and delays move no line the
 * controller watches. That is an idealisation: switching the data lines to
 * pulled-up inputs does pull RS and D4..D7 high. Only the enable line
 * latches anything, and the driver never changes its mode.
 */
module Receiver {
  import opened Gpio
  import opened Protocol

  /** One latched nibble: the register (true: data register) and bits D7..D4 as a value 0..15. */
  datatype Nibble = Nibble(data: bool, value: bv8)

  /** One byte transfer: the register it went to and the byte. */
  datatype Transfer = Transfer(data: bool, value: bv8)

  /** What the controller sees: the logical levels of RS, D4..D7 and E, and the nibbles latched so far. */
  datatype Rx = Rx(rs: bool, d4: bool, d5: bool, d6: bool, d7: bool, e: bool, got: seq<Nibble>)

  /** The value on D7..D4. */
  function NibbleValue(d4: bool, d5: bool, d6: bool, d7: bool): (v: bv8)
    ensures v < 16
  {
    (if d7 then 8 else 0) | (if d6 then 4 else 0) | (if d5 then 2 else 0) | (if d4 then 1 else 0)
  }

  /** What one pin call does to the controller's view. */
  function Apply(bus: Bus, rx: Rx, ev: Event): Rx
  {
    match ev
    case DigitalWrite(pin, high) =>
      var level := high != bus.inverted;
      var p := bus.pins;
      if pin == p.enable then
        if rx.e && !level then
          rx.(e := false, got := rx.got + [Nibble(rx.rs, NibbleValue(rx.d4, rx.d5, rx.d6, rx.d7))])
        else rx.(e := level)
      else
        rx.(rs := if pin == p.rs then level else rx.rs,
            d4 := if pin == p.d4 then level else rx.d4,
            d5 := if pin == p.d5 then level else rx.d5,
            d6 := if pin == p.d6 then level else rx.d6,
            d7 := if pin == p.d7 then level else rx.d7)
    case _ => rx
  }

  /** The controller's view after a whole trace. */
  function Run(bus: Bus, rx: Rx, es: seq<Event>): Rx
    decreases |es|
  {
    if |es| == 0 then rx else Run(bus, Apply(bus, rx, es[0]), es[1..])
  }

  /** Nibbles of a byte transfer, high first. */
  function Split(ts: seq<Transfer>): (ns: seq<Nibble>)
    ensures |ns| == 2 * |ts|
  {
    if |ts| == 0 then []
    else [Nibble(ts[0].data, ts[0].value >> 4), Nibble(ts[0].data, ts[0].value & 0x0F)] + Split(ts[1..])
  }

  /** Byte transfers of a nibble stream in 4-bit mode: consecutive pairs, high nibble first. */
  function Pair(ns: seq<Nibble>): (ts: seq<Transfer>)
    ensures |ts| == |ns| / 2
  {
    if |ns| < 2 then []
    else [Transfer(ns[1].data, (ns[0].value << 4) | (ns[1].value & 0x0F))] + Pair(ns[2..])
  }

  /** The byte transfers the controller takes in from a trace, starting idle. */
  function Decode(bus: Bus, es: seq<Event>): seq<Transfer>
  {
    Pair(Run(bus, Rx(false, false, false, false, false, false, []), es).got)
  }

  /** Running a concatenation is running its parts one after the other. */
  lemma {:induction false} RunAppend(bus: Bus, rx: Rx, a: seq<Event>, b: seq<Event>)
    ensures Run(bus, rx, a + b) == Run(bus, Run(bus, rx, a), b)
    decreases |a|
  {
    if |a| == 0 {
      assert a + b == b;
    } else {
      assert (a + b)[1..] == a[1..] + b;
      RunAppend(bus, Apply(bus, rx, a[0]), a[1..], b);
    }
  }

  /** A trace without level writes leaves the controller's view alone. */
  lemma {:induction false} RunQuiet(bus: Bus, rx: Rx, es: seq<Event>)
    requires forall i :: 0 <= i < |es| ==> !es[i].DigitalWrite?
    ensures Run(bus, rx, es) == rx
    decreases |es|
  {
    if |es| > 0 {
      assert forall i :: 0 <= i < |es[1..]| ==> es[1..][i] == es[i + 1];
      RunQuiet(bus, rx, es[1..]);
    }
  }

  /** Splitting then pairing gives back every transfer. */
  lemma {:induction false} PairSplit(ts: seq<Transfer>)
    ensures Pair(Split(ts)) == ts
    decreases |ts|
  {
    if |ts| > 0 {
      var v := ts[0].value;
      assert ((v >> 4) << 4) | ((v & 0x0F) & 0x0F) == v;
      var ns := Split(ts);
      assert ns[2..] == Split(ts[1..]);
      PairSplit(ts[1..]);
    }
  }

  /** Splitting distributes over a concatenation. */
  lemma {:induction false} SplitAppend(a: seq<Transfer>, b: seq<Transfer>)
    ensures Split(a + b) == Split(a) + Split(b)
    decreases |a|
  {
    if |a| == 0 {
      assert a + b == b;
    } else {
      assert (a + b)[1..] == a[1..] + b;
      SplitAppend(a[1..], b);
    }
  }

  /** The controller's view after one pin call, then the rest of the trace. */
  lemma RunCons(bus: Bus, rx: Rx, e: Event, es: seq<Event>)
    ensures Run(bus, rx, [e] + es) == Run(bus, Apply(bus, rx, e), es)
  {
    assert ([e] + es)[1..] == es;
  }

  /**
   * `write4bits` as the controller sees it: D4..D7 take bits 0..3 of the
   * argument, and the single enable pulse latches exactly that nibble, with
   * whatever register RS selected.
   */
  lemma Write4BitsLatches(bus: Bus, rx: Rx, v: bv8)
    requires Distinct(bus.pins) && !rx.e
    ensures Run(bus, rx, Write4Bits(bus, v))
            == rx.(d4 := Bit(v, 0), d5 := Bit(v, 1), d6 := Bit(v, 2), d7 := Bit(v, 3),
                   got := rx.got + [Nibble(rx.rs, v & 0x0F)])
  {
    var p := bus.pins;
    var pulse := PulseEnable(bus);
    var es := Write4Bits(bus, v);
    assert es == [es[0]] + ([es[1]] + ([es[2]] + ([es[3]] + pulse)));
    RunCons(bus, rx, es[0], [es[1]] + ([es[2]] + ([es[3]] + pulse)));
    var r1 := Apply(bus, rx, es[0]);
    RunCons(bus, r1, es[1], [es[2]] + ([es[3]] + pulse));
    var r2 := Apply(bus, r1, es[1]);
    RunCons(bus, r2, es[2], [es[3]] + pulse);
    var r3 := Apply(bus, r2, es[2]);
    RunCons(bus, r3, es[3], pulse);
    var r4 := Apply(bus, r3, es[3]);
    assert r4 == rx.(d4 := Bit(v, 0), d5 := Bit(v, 1), d6 := Bit(v, 2), d7 := Bit(v, 3));
    PulseLatches(bus, r4);
    assert NibbleValue(Bit(v, 0), Bit(v, 1), Bit(v, 2), Bit(v, 3)) == v & 0x0F;
  }

  /** One enable pulse from idle latches the nibble on the data lines and returns to idle. */
  lemma PulseLatches(bus: Bus, rx: Rx)
    requires !rx.e
    ensures Run(bus, rx, PulseEnable(bus))
            == rx.(got := rx.got + [Nibble(rx.rs, NibbleValue(rx.d4, rx.d5, rx.d6, rx.d7))])
  {
    var es := PulseEnable(bus);
    assert es == [es[0]] + ([es[1]] + ([es[2]] + ([es[3]] + ([es[4]] + [es[5]]))));
    RunCons(bus, rx, es[0], [es[1]] + ([es[2]] + ([es[3]] + ([es[4]] + [es[5]]))));
    var r1 := Apply(bus, rx, es[0]);
    RunCons(bus, r1, es[1], [es[2]] + ([es[3]] + ([es[4]] + [es[5]])));
    RunCons(bus, r1, es[2], [es[3]] + ([es[4]] + [es[5]]));
    var r3 := Apply(bus, r1, es[2]);
    RunCons(bus, r3, es[3], [es[4]] + [es[5]]);
    RunCons(bus, r3, es[4], [es[5]]);
    var r5 := Apply(bus, r3, es[4]);
    RunCons(bus, r5, es[5], []);
    assert [es[5]] + [] == [es[5]];
  }

  /**
   * From view `rx`, if idle, trace `es` latches exactly the nibbles of the
   * byte transfers `ts`, high first, and leaves the enable line idle.
   */
  ghost predicate Carries(bus: Bus, rx: Rx, es: seq<Event>, ts: seq<Transfer>)
  {
    !rx.e ==> !Run(bus, rx, es).e && Run(bus, rx, es).got == rx.got + Split(ts)
  }

  /** Trace `es` carries exactly the byte transfers `ts`, whatever came before it. */
  ghost predicate Frames(bus: Bus, es: seq<Event>, ts: seq<Transfer>)
  {
    forall rx: Rx :: Carries(bus, rx, es, ts)
  }

  /** Framed traces compose: one after the other carries both transfer lists. */
  lemma FramesAppend(bus: Bus, a: seq<Event>, ta: seq<Transfer>, b: seq<Event>, tb: seq<Transfer>)
    requires Frames(bus, a, ta) && Frames(bus, b, tb)
    ensures Frames(bus, a + b, ta + tb)
  {
    forall rx: Rx
      ensures Carries(bus, rx, a + b, ta + tb)
    {
      if !rx.e {
        RunAppend(bus, rx, a, b);
        SplitAppend(ta, tb);
        var ra := Run(bus, rx, a);
        assert Carries(bus, rx, a, ta);
        assert Carries(bus, ra, b, tb);
        assert Run(bus, ra, b).got == rx.got + (Split(ta) + Split(tb));
      }
    }
  }

  /** A trace without level writes carries no transfer. */
  lemma QuietFrames(bus: Bus, es: seq<Event>)
    requires forall i :: 0 <= i < |es| ==> !es[i].DigitalWrite?
    ensures Frames(bus, es, [])
  {
    forall rx: Rx
      ensures Carries(bus, rx, es, [])
    {
      RunQuiet(bus, rx, es);
    }
  }

  /** What a framed trace decodes to, from power-up idle. */
  lemma FramesDecode(bus: Bus, es: seq<Event>, ts: seq<Transfer>)
    requires Frames(bus, es, ts)
    ensures Decode(bus, es) == ts
  {
    var idle := Rx(false, false, false, false, false, false, []);
    assert Carries(bus, idle, es, ts);
    assert Run(bus, idle, es).got == [] + Split(ts);
    assert [] + Split(ts) == Split(ts);
    PairSplit(ts);
  }

  /**
   * `send` as the controller sees it: RS selects the register, and the byte
   * arrives as its high nibble then its low nibble, both to that register.
   */
  lemma SendFrames(bus: Bus, v: bv8, data: bool)
    requires Distinct(bus.pins)
    ensures Frames(bus, Send(bus, v, data), [Transfer(data, v)])
  {
    forall rx: Rx
      ensures Carries(bus, rx, Send(bus, v, data), [Transfer(data, v)])
    {
      if !rx.e {
        SendCarries(bus, rx, v, data);
      }
    }
  }

  /** `send` from one idle view: RS is set first, so both nibbles go to the selected register. */
  lemma SendCarries(bus: Bus, rx: Rx, v: bv8, data: bool)
    requires Distinct(bus.pins) && !rx.e
    ensures Carries(bus, rx, Send(bus, v, data), [Transfer(data, v)])
  {
    var w := DigitalWrite(bus.pins.rs, Drive(bus, data));
    var hi := Write4Bits(bus, v >> 4);
    var lo := Write4Bits(bus, v);
    assert Send(bus, v, data) == [w] + (hi + lo);
    RunCons(bus, rx, w, hi + lo);
    var r1 := Apply(bus, rx, w);
    assert r1.rs == data && !r1.e && r1.got == rx.got;
    RunAppend(bus, r1, hi, lo);
    Write4BitsLatches(bus, r1, v >> 4);
    var r2 := Run(bus, r1, hi);
    Write4BitsLatches(bus, r2, v);
    HighNibbleFits(v);
    SplitOne(data, v);
  }

  /** The high nibble of a byte, shifted down, has nothing above bit 3. */
  lemma HighNibbleFits(v: bv8)
    ensures (v >> 4) & 0x0F == v >> 4
  {
  }

  /** A single transfer splits into its high and low nibble. */
  lemma SplitOne(data: bool, v: bv8)
    ensures Split([Transfer(data, v)]) == [Nibble(data, v >> 4), Nibble(data, v & 0x0F)]
  {
    assert [Transfer(data, v)][1..] == [];
  }

  /** Data-line direction changes around a transfer carry nothing. */
  lemma ClaimReleaseQuiet(bus: Bus)
    ensures Frames(bus, ClaimOutputs(bus), [])
    ensures Frames(bus, ReleaseInputs(bus), [])
  {
    QuietFrames(bus, ClaimOutputs(bus));
    QuietFrames(bus, ReleaseInputs(bus));
  }

  /** `command(v)` delivers exactly the instruction byte `v`. */
  lemma CommandFrames(bus: Bus, v: bv8)
    requires Distinct(bus.pins)
    ensures Frames(bus, Command(bus, v), [Transfer(false, v)])
    ensures Decode(bus, Command(bus, v)) == [Transfer(false, v)]
  {
    ClaimReleaseQuiet(bus);
    SendFrames(bus, v, false);
    FramesAppend(bus, ClaimOutputs(bus), [], Send(bus, v, false), [Transfer(false, v)]);
    assert [] + [Transfer(false, v)] == [Transfer(false, v)];
    FramesAppend(bus, ClaimOutputs(bus) + Send(bus, v, false), [Transfer(false, v)], ReleaseInputs(bus), []);
    assert [Transfer(false, v)] + [] == [Transfer(false, v)];
    FramesDecode(bus, Command(bus, v), [Transfer(false, v)]);
  }

  /** `write(v)` delivers exactly the data byte `v`. */
  lemma WriteFrames(bus: Bus, v: bv8)
    requires Distinct(bus.pins)
    ensures Frames(bus, Write(bus, v).trace, [Transfer(true, v)])
    ensures Decode(bus, Write(bus, v).trace) == [Transfer(true, v)]
  {
    ClaimReleaseQuiet(bus);
    SendFrames(bus, v, true);
    FramesAppend(bus, ClaimOutputs(bus), [], Send(bus, v, true), [Transfer(true, v)]);
    assert [] + [Transfer(true, v)] == [Transfer(true, v)];
    FramesAppend(bus, ClaimOutputs(bus) + Send(bus, v, true), [Transfer(true, v)], ReleaseInputs(bus), []);
    assert [Transfer(true, v)] + [] == [Transfer(true, v)];
    FramesDecode(bus, Write(bus, v).trace, [Transfer(true, v)]);
  }
}
