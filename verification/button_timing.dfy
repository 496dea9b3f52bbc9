/**
 * Timing facts about the button automaton: how many samples a level change
 * needs before it is accepted, when the auto-repeat fires while a button is
 * held, and how the rate gate and the per-button records keep out of each
 * other's way.
 */
module ButtonTiming {
  import opened Gpio
  import opened Buttons

  /** The record after feeding it the samples `ss`, oldest first. */
  function FeedAll(r: Button, ss: seq<Byte>): Button
    decreases |ss|
  {
    if |ss| == 0 then r else Step(FeedAll(r, ss[..|ss| - 1]), ss[|ss| - 1])
  }

  /** `n` copies of the same sample. */
  function Constant(s: Byte, n: nat): (ss: seq<Byte>)
    ensures |ss| == n && forall j :: 0 <= j < n ==> ss[j] == s
  {
    seq(n, _ => s)
  }

  /**
   * Inside the debounce window, samples that differ from the accepted level
   * (whatever their values) only lengthen the run: the level, the repeat
   * countdown and the latch stay as they were.
   */
  lemma {:induction false} BounceOnlyCounts(r: Button, ss: seq<Byte>)
    requires forall j :: 0 <= j < |ss| ==> ss[j] != r.last
    requires r.run + |ss| <= DebounceRuns + 1
    ensures FeedAll(r, ss) == r.(run := r.run + |ss|)
    decreases |ss|
  {
    if |ss| > 0 {
      var init := ss[..|ss| - 1];
      assert forall j :: 0 <= j < |init| ==> init[j] == ss[j];
      BounceOnlyCounts(r, init);
    }
  }

  /**
   * The sample that takes the run past the threshold is accepted: it becomes
   * the level, the run restarts, the long repeat delay is loaded and a
   * pressed level raises the latch (a released one never lowers it).
   */
  lemma AcceptedOnTwelfth(r: Button, ss: seq<Byte>)
    requires r.run <= DebounceRuns + 1
    requires |ss| == DebounceRuns + 2 - r.run
    requires forall j :: 0 <= j < |ss| ==> ss[j] != r.last
    ensures FeedAll(r, ss) == Button(ss[|ss| - 1], 0, RepeatFirst, r.latched || ss[|ss| - 1] == Pressed)
  {
    var init := ss[..|ss| - 1];
    assert forall j :: 0 <= j < |init| ==> init[j] == ss[j];
    BounceOnlyCounts(r, init);
  }

  /**
   * From a settled record, a new level is accepted on exactly the twelfth
   * consecutive sample of that level, and on none of the eleven before it.
   */
  lemma DebounceTakesTwelveSamples(r: Button, s: Byte, n: nat)
    requires r.run == 0 && s != r.last
    requires 1 <= n <= DebounceRuns + 2
    ensures FeedAll(r, Constant(s, n)).last == s <==> n == DebounceRuns + 2
    ensures n < DebounceRuns + 2 ==> FeedAll(r, Constant(s, n)) == r.(run := n)
    ensures n == DebounceRuns + 2 ==>
              FeedAll(r, Constant(s, n)) == Button(s, 0, RepeatFirst, r.latched || s == Pressed)
  {
    if n < DebounceRuns + 2 {
      BounceOnlyCounts(r, Constant(s, n));
    } else {
      AcceptedOnTwelfth(r, Constant(s, n));
    }
  }

  /** One held-down sample followed by the application draining the latch. */
  function HoldDrained(r: Button, n: nat): Button
  {
    if n == 0 then r else Step(HoldDrained(r, n - 1), Pressed).(latched := false)
  }

  /** Whether the `n`-th held-down sample (counting from 1) raises the latch. */
  function FiresAt(r: Button, n: nat): bool
    requires n >= 1
  {
    Step(HoldDrained(r, n - 1), Pressed).latched
  }

  /**
   * The held sample on which countdown `k` first fires. A countdown of 0
   * (which only an uninitialised record holds) is decremented with byte
   * wrap-around to 255 first, so it behaves as 256.
   */
  function FirstFire(k: Byte): (n: nat)
    ensures 1 <= n <= 256
    ensures n % 256 == k
  {
    if k == 0 then 256 else k
  }

  /**
   * The repeat countdown after `n` held samples from countdown `k`: first
   * down from `k` (through the byte wrap when `k` is 0), then cycling through
   * the short interval.
   */
  function Countdown(k: Byte, n: nat): (c: Byte)
    ensures c == 0 <==> k == 0 && n == 0
    ensures n >= FirstFire(k) ==> (c == RepeatNext <==> (n - FirstFire(k)) % RepeatNext == 0)
  {
    if n < FirstFire(k) then (FirstFire(k) - n) % 256 else RepeatNext - (n - FirstFire(k)) % RepeatNext
  }

  /** One more held sample advances the repeat phase by one, wrapping after `RepeatNext`. */
  lemma PhaseStep(m: nat)
    ensures (m + 1) % RepeatNext == 0 <==> m % RepeatNext == RepeatNext - 1
    ensures m % RepeatNext != RepeatNext - 1 ==> (m + 1) % RepeatNext == m % RepeatNext + 1
  {
    var q := m / RepeatNext;
    var p := m % RepeatNext;
    assert m == RepeatNext * q + p;
    if p == RepeatNext - 1 {
      assert m + 1 == RepeatNext * (q + 1);
    } else {
      assert m + 1 == RepeatNext * q + (p + 1);
    }
  }

  /**
   * While a button is held and each press is drained, the record stays on
   * the pressed level with no run, and its countdown follows `Countdown`,
   * whatever countdown it started from.
   */
  lemma {:induction false} HeldCountdown(r: Button, n: nat)
    requires r.last == Pressed
    ensures HoldDrained(r, n)
            == Button(Pressed, if n == 0 then r.run else 0, Countdown(r.repeat, n), n == 0 && r.latched)
  {
    if n > 0 {
      HeldCountdown(r, n - 1);
      var c := Countdown(r.repeat, n - 1);
      CountdownStep(r.repeat, n - 1);
      HeldStep(if n - 1 == 0 then r.run else 0, c, n - 1 == 0 && r.latched);
    }
  }

  /**
   * A held sample on a held record counts down with byte wrap-around (0
   * becomes 255), firing and reloading `RepeatNext` when it reaches zero.
   */
  lemma HeldStep(run: Byte, c: Byte, latched: bool)
    ensures Step(Button(Pressed, run, c, latched), Pressed)
            == Button(Pressed, 0, if c == 1 then RepeatNext else (c - 1) % 256, latched || c == 1)
  {
  }

  /** Each held sample counts the countdown down by one, wrapping at 0 and reloading `RepeatNext` after 1. */
  lemma CountdownStep(k: Byte, n: nat)
    ensures Countdown(k, n + 1) == if Countdown(k, n) == 1 then RepeatNext else (Countdown(k, n) - 1) % 256
  {
    if n >= FirstFire(k) {
      PhaseStep(n - FirstFire(k));
    }
  }

  /** The countdown before the `n`-th held sample is 1 exactly when that sample fires. */
  lemma CountdownReachesOne(k: Byte, n: nat)
    requires n >= 1
    ensures Countdown(k, n - 1) == 1 <==> n == FirstFire(k) || (n > FirstFire(k) && (n - FirstFire(k)) % RepeatNext == 0)
  {
    if n - 1 >= FirstFire(k) {
      PhaseStep(n - 1 - FirstFire(k));
    }
  }

  /**
   * Auto-repeat schedule: with countdown `k` on a held, drained button, the
   * latch fires on the `k`-th held sample (the 256th when `k` is 0) and then
   * on every thirtieth one.
   */
  lemma RepeatSchedule(r: Button, n: nat)
    requires r.last == Pressed && !r.latched
    requires n >= 1
    ensures FiresAt(r, n) <==> n == FirstFire(r.repeat) || (n > FirstFire(r.repeat) && (n - FirstFire(r.repeat)) % RepeatNext == 0)
  {
    HeldCountdown(r, n - 1);
    var c := Countdown(r.repeat, n - 1);
    HeldStep(if n - 1 == 0 then r.run else 0, c, false);
    assert FiresAt(r, n) <==> c == 1;
    CountdownReachesOne(r.repeat, n);
  }

  /** A zero countdown, as an uninitialised record holds, wraps: the first repeat comes on the 256th held sample. */
  lemma ZeroCountdownWraps(run: Byte)
    ensures Step(Button(Pressed, run, 0, false), Pressed) == Button(Pressed, 0, 255, false)
    ensures forall n :: 1 <= n <= 256 ==> (FiresAt(Button(Pressed, run, 0, false), n) <==> n == 256)
  {
    forall n | 1 <= n <= 256
      ensures FiresAt(Button(Pressed, run, 0, false), n) <==> n == 256
    {
      RepeatSchedule(Button(Pressed, run, 0, false), n);
    }
  }

  /**
   * A whole press: a settled released button pressed for twelve samples
   * raises exactly one press event, on the twelfth; once that is drained,
   * holding on fires again after 100 samples and then every 30.
   */
  lemma PressThenAutoRepeat(r: Button, n: nat)
    requires r.last != Pressed && r.run == 0 && !r.latched
    requires n >= 1
    ensures forall k :: 1 <= k < DebounceRuns + 2 ==> !FeedAll(r, Constant(Pressed, k)).latched
    ensures FeedAll(r, Constant(Pressed, DebounceRuns + 2)).latched
    ensures var drained := FeedAll(r, Constant(Pressed, DebounceRuns + 2)).(latched := false);
            FiresAt(drained, n) <==> n == RepeatFirst || (n > RepeatFirst && (n - RepeatFirst) % RepeatNext == 0)
  {
    forall k | 1 <= k < DebounceRuns + 2
      ensures !FeedAll(r, Constant(Pressed, k)).latched
    {
      DebounceTakesTwelveSamples(r, Pressed, k);
    }
    DebounceTakesTwelveSamples(r, Pressed, DebounceRuns + 2);
    RepeatSchedule(Button(Pressed, 0, RepeatFirst, false), n);
  }

  /** A stable released sample restarts the window and changes nothing else. */
  lemma ReleasedSampleOnlyRestarts(r: Button, s: Byte)
    requires s == r.last && s != Pressed
    ensures Step(r, s) == r.(run := 0)
  {
  }

  /**
   * Records are independent: a button's new record depends only on its own
   * old record, the reading of its own data-pin table entry and the shared
   * poll gate.
   */
  lemma PollIsPerButton(p: Panel, q: Panel, millis: nat, a: Reader, c: Reader, pins: Pins, i: Index)
    requires p.lastMillis == q.lastMillis
    requires p.buttons[i] == q.buttons[i] && a(DataLine(pins, i)) == c(DataLine(pins, i))
    ensures Poll(p, millis, a, pins).buttons[i] == Poll(q, millis, c, pins).buttons[i]
  {
  }

  /** A second poll less than five milliseconds after an effective one changes nothing. */
  lemma PollRateLimited(p: Panel, t1: nat, a: Reader, t2: nat, c: Reader, pins: Pins)
    requires Elapsed(t1, p.lastMillis) >= PollIntervalMs
    requires Elapsed(t2, t1 % 65536) < PollIntervalMs
    ensures Poll(Poll(p, t1, a, pins), t2, c, pins) == Poll(p, t1, a, pins)
  {
  }

  /** Draining is once only: a second `getButtonPressed` reports nothing and changes nothing. */
  lemma DrainIsOnce(p: Panel, b: Index)
    ensures GetButtonPressed(GetButtonPressed(p, b).panel, b)
              == Taken(GetButtonPressed(p, b).panel, false)
  {
  }

  /** After `clearButtons`, `getButtonPressed` reports no press for any button and changes nothing. */
  lemma ClearedReportsNothing(p: Panel, b: Index)
    ensures GetButtonPressed(ClearButtons(p), b) == Taken(ClearButtons(p), false)
  {
  }

  /**
   * The debounced reading of `readButton` changes across a poll exactly when
   * the poll is effective, the button's run is past the threshold and its
   * reading is pressed where the accepted level was released or the reverse.
   */
  lemma ReadButtonChangesOnAcceptance(p: Panel, millis: nat, read: Reader, pins: Pins, b: Index)
    ensures var s := read(DataLine(pins, b));
            ReadButton(Poll(p, millis, read, pins), b) != ReadButton(p, b)
            <==> Elapsed(millis, p.lastMillis) >= PollIntervalMs && p.buttons[b].run > DebounceRuns
                 && (s == Pressed) != (p.buttons[b].last == Pressed)
  {
  }

  /**
   * After an effective poll in which button `b` read its accepted level, or
   * in which the reading was accepted, `readButton` agrees with
   * `readUnBounced` on that same reading.
   */
  lemma DebouncedAgreesWithRaw(p: Panel, millis: nat, read: Reader, pins: Pins, b: Index)
    requires Elapsed(millis, p.lastMillis) >= PollIntervalMs
    requires read(DataLine(pins, b)) == p.buttons[b].last || p.buttons[b].run > DebounceRuns
    ensures ReadButton(Poll(p, millis, read, pins), b) == ReadUnbounced(read, pins, b)
  {
  }
}
