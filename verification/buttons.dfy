/**
 * The button side of the driver: five push buttons read through the display's
 * data lines (which idle as pulled-up inputs), each with its own debounce and
 * auto-repeat automaton, and the queries the application makes of them.
 *
 * A raw reading of 0 means pressed (the button shorts its line to ground);
 * anything else means released.
 */
module Buttons {
  import opened Gpio

  /** An unsigned 16-bit quantity (the poll gate's millisecond stamp). */
  type Word = x: int | 0 <= x < 65536

  const ButtonCount := 5

  /** Minimum number of milliseconds between two effective polls. */
  const PollIntervalMs := 5

  /** A change is accepted once more than this many differing samples were seen. */
  const DebounceRuns := 10

  /** Repeat countdown loaded when a new level is accepted. */
  const RepeatFirst := 100

  /** Repeat countdown loaded each time an auto-repeat fires. */
  const RepeatNext := 30

  /** The pressed level of a raw reading. */
  const Pressed: Byte := 0

  /**
   * One button: the last accepted level, the number of consecutive samples
   * that differed from it, the auto-repeat countdown and the pending-press latch.
   */
  datatype Button = Button(last: Byte, run: Byte, repeat: Byte, latched: bool)

  /** One record per button. */
  type Buttons = s: seq<Button> | |s| == ButtonCount
    witness seq(ButtonCount, _ => Button(1, 0, 0, false))

  /**
   * What `digitalRead` returns for each pin at the moment of a poll. Button
   * `i` is read on entry `i` of the data-pin table, so the fifth button shares
   * the register-select pin.
   */
  type Reader = Pin -> Byte

  /** The raw reading of button `b` through the data-pin table. */
  function Sample(read: Reader, pins: Pins, b: Index): Byte
  {
    read(DataLine(pins, b))
  }

  /** The driver's button state: the last effective poll time and the five records. */
  datatype Panel = Panel(lastMillis: Word, buttons: Buttons)

  /** A button index the driver's arrays can hold. */
  type Index = b: nat | b < ButtonCount

  /** Milliseconds since the last effective poll, as the 16-bit subtraction computes them. */
  function Elapsed(millis: nat, last: Word): (e: Word)
    ensures (last + e) % 65536 == millis % 65536
  {
    (millis % 65536 - last) % 65536
  }

  /**
   * One sample of one button.
   *
   * A sample equal to the accepted level clears the run and, while pressed,
   * counts the repeat down (with byte wrap-around), firing the latch and
   * reloading the short interval when it reaches zero. A differing sample
   * extends the run, or, once the run exceeds the threshold, is accepted.
   */
  function Step(r: Button, s: Byte): (r': Button)
    // polling never clears a pending press
    ensures r.latched ==> r'.latched
    // a latch is only ever raised by a pressed sample
    ensures r'.latched && !r.latched ==> s == Pressed
    // the accepted level changes only to the sample, and only after a long run
    ensures r'.last != r.last ==> r'.last == s && r.run > DebounceRuns
    // whatever the starting run, it never exceeds the threshold by more than one
    ensures r'.run <= DebounceRuns + 1
    // a sample matching the accepted level restarts the debounce window
    ensures s == r.last ==> r'.run == 0
  {
    if s == r.last then
      if s == Pressed then
        var down := (r.repeat - 1) % 256;
        if down == 0 then r.(run := 0, repeat := RepeatNext, latched := true)
        else r.(run := 0, repeat := down)
      else r.(run := 0)
    else if r.run > DebounceRuns then
      Button(s, 0, RepeatFirst, r.latched || s == Pressed)
    else
      r.(run := r.run + 1)
  }

  /**
   * `pollButtons`: at most one effective poll per five milliseconds of the
   * 16-bit clock; an effective poll stamps the time and steps every button
   * from the reading of its own data-pin table entry.
   */
  function Poll(p: Panel, millis: nat, read: Reader, pins: Pins): (q: Panel)
    ensures Elapsed(millis, p.lastMillis) < PollIntervalMs ==> q == p
    ensures Elapsed(millis, p.lastMillis) >= PollIntervalMs ==>
              q.lastMillis == millis % 65536 &&
              forall i: Index :: q.buttons[i] == Step(p.buttons[i], read(DataLine(pins, i)))
    ensures forall i :: 0 <= i < ButtonCount && p.buttons[i].latched ==> q.buttons[i].latched
  {
    if Elapsed(millis, p.lastMillis) < PollIntervalMs then p
    else Panel(millis % 65536, seq(ButtonCount, i requires 0 <= i < ButtonCount => Step(p.buttons[i], Sample(read, pins, i))))
  }

  /** `clearButtons`: drops every pending press and touches nothing else. */
  function ClearButtons(p: Panel): (q: Panel)
    ensures q.lastMillis == p.lastMillis
    ensures forall i :: 0 <= i < ButtonCount ==> q.buttons[i] == p.buttons[i].(latched := false)
  {
    p.(buttons := seq(ButtonCount, i requires 0 <= i < ButtonCount => p.buttons[i].(latched := false)))
  }

  /** The outcome of `getButtonPressed`: the new state and the reported press. */
  datatype Taken = Taken(panel: Panel, pressed: bool)

  /**
   * `getButtonPressed`: reports button `b`'s pending press and leaves it
   * cleared; no other field and no other button changes.
   */
  function GetButtonPressed(p: Panel, b: Index): (t: Taken)
    ensures t.pressed == p.buttons[b].latched
    ensures t.panel.buttons[b] == p.buttons[b].(latched := false)
    ensures t.panel.lastMillis == p.lastMillis
    ensures forall i :: 0 <= i < ButtonCount && i != b ==> t.panel.buttons[i] == p.buttons[i]
  {
    if p.buttons[b].latched then Taken(p.(buttons := p.buttons[b := p.buttons[b].(latched := false)]), true)
    else Taken(p, false)
  }

  /** `readButton`: 1 while the debounced level of button `b` is pressed, else 0; no state change. */
  function ReadButton(p: Panel, b: Index): (v: Byte)
    ensures v == 1 <==> p.buttons[b].last == Pressed
    ensures v == 0 <==> p.buttons[b].last != Pressed
  {
    if p.buttons[b].last == Pressed then 1 else 0
  }

  /**
   * `readUnBounced`: 1 while the raw reading of button `b`'s data-pin table
   * entry is pressed, else 0, bypassing the debounce.
   */
  function ReadUnbounced(read: Reader, pins: Pins, b: Index): (v: Byte)
    ensures v == 1 <==> read(DataLine(pins, b)) == Pressed
    ensures v == 0 <==> read(DataLine(pins, b)) != Pressed
  {
    if Sample(read, pins, b) == Pressed then 1 else 0
  }

  /** The platform clock and the pin readings seen by one call of `pollButtons`. */
  datatype PollInput = PollInput(millis: nat, read: Reader)

  /**
   * The state after polling once per input, in order. Polling never drops a
   * pending press, however many polls are made.
   */
  function PollAll(p: Panel, pins: Pins, ins: seq<PollInput>): (q: Panel)
    ensures forall i :: 0 <= i < ButtonCount && p.buttons[i].latched ==> q.buttons[i].latched
    decreases |ins|
  {
    if |ins| == 0 then p
    else
      var last := ins[|ins| - 1];
      Poll(PollAll(p, pins, ins[..|ins| - 1]), last.millis, last.read, pins)
  }

  /**
   * The outcome of `waitButtonPressed` over a finite stretch of poll inputs:
   * it returned (with the reported press), or the inputs ran out while it was
   * still polling.
   */
  datatype Wait = Returned(panel: Panel, pressed: bool) | StillWaiting(panel: Panel)

  /**
   * `waitButtonPressed`: takes the pending press of button `b`; if there was
   * none, polls until the debounced level of `b` is released. `used` is the
   * number of inputs consumed.
   */
  method WaitButtonPressed(p: Panel, b: Index, pins: Pins, ins: seq<PollInput>) returns (w: Wait, used: nat)
    ensures used <= |ins|
    ensures p.buttons[b].latched ==> w == Returned(GetButtonPressed(p, b).panel, true) && used == 0
    ensures !p.buttons[b].latched ==> w.panel == PollAll(p, pins, ins[..used])
    ensures !p.buttons[b].latched ==>
              forall j :: 0 <= j < used ==> PollAll(p, pins, ins[..j]).buttons[b].last == Pressed
    ensures !p.buttons[b].latched && w.Returned? ==> !w.pressed && w.panel.buttons[b].last != Pressed
    ensures !p.buttons[b].latched && w.Returned? ==> ReadButton(w.panel, b) == 0
    ensures w.StillWaiting? ==> used == |ins| && w.panel.buttons[b].last == Pressed
    ensures w.StillWaiting? ==> ReadButton(w.panel, b) == 1
  {
    var t := GetButtonPressed(p, b);
    if t.pressed {
      return Returned(t.panel, true), 0;
    }
    assert t.panel == p;
    var q := p;
    used := 0;
    while used < |ins| && q.buttons[b].last == Pressed
      invariant used <= |ins|
      invariant q == PollAll(p, pins, ins[..used])
      invariant forall j :: 0 <= j < used ==> PollAll(p, pins, ins[..j]).buttons[b].last == Pressed
      decreases |ins| - used
    {
      assert ins[..used + 1][..used] == ins[..used];
      q := Poll(q, ins[used].millis, ins[used].read, pins);
      used := used + 1;
    }
    if q.buttons[b].last == Pressed {
      w := StillWaiting(q);
    } else {
      w := Returned(q, false);
    }
  }
}
