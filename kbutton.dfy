/**
 * The record behind every continuous client action (+forward, +attack, ...):
 * up to two input sources may hold the action down at once, and the record
 * counts how many milliseconds it was held since the last per-frame sample.
 *
 * The three state bits are: 1 = held now, 2 = went down since the last
 * frame (press edge), 4 = went up (release edge). Slot value 0 marks an
 * empty slot; the console's own source id is -1.
 */
module KButton {
  import opened Common

  const HeldBit: bv3 := 1
  const PressEdge: bv3 := 2
  const ReleaseEdge: bv3 := 4

  /** One kbutton_t: the two source slots, press time, unreported held time and state bits. */
  datatype Button = Button(down0: int, down1: int, downtime: int, msec: int, state: bv3)

  /** A button as it starts: no source, no time, no bits. */
  const Idle: Button := Button(0, 0, 0, 0, 0)

  predicate Held(b: Button) {
    b.state & HeldBit != 0
  }

  /** The held bit agrees with the slots: the action is down iff some source holds it. */
  predicate Valid(b: Button) {
    Held(b) <==> (b.down0 != 0 || b.down1 != 0)
  }

  /** The source a press or release command names; a command without one was typed at the console. */
  function SourceOf(arg: Option<int>): int {
    if arg.Some? then arg.value else -1
  }

  /** The up-to-down transition: stamp the press time (100 ms ago when no time is given) and raise held and press edge. */
  function StartHold(b: Button, stamp: int, now: int): (r: Button)
    requires !Held(b)
    ensures Held(r) && r.state & PressEdge != 0
    ensures r.downtime == (if stamp != 0 then stamp else now - 100)
    ensures r.state == b.state | HeldBit | PressEdge
    ensures r.(downtime := b.downtime, state := b.state) == b
  {
    b.(downtime := if stamp != 0 then stamp else now - 100, state := b.state | HeldBit | PressEdge)
  }

  /**
   * A press command for this button from source `arg`, with the press time
   * `stamp` (0 when absent) at frame time `now`.
   */
  function Press(b: Button, arg: Option<int>, stamp: int, now: int): (r: Button)
    ensures Valid(b) ==> Valid(r)
    ensures r.msec == b.msec
    // a source already holding the button, or a third source, changes nothing
    ensures SourceOf(arg) == b.down0 || SourceOf(arg) == b.down1 ==> r == b
    ensures b.down0 != 0 && b.down1 != 0 ==> r == b
    // a second source joining a held button leaves the time and the bits alone
    ensures Held(b) ==> r.state == b.state && r.downtime == b.downtime
    // only the up-to-down transition stamps the time and raises the edge
    ensures !Held(b) && Held(r) ==>
              r.state == b.state | HeldBit | PressEdge &&
              r.downtime == (if stamp != 0 then stamp else now - 100)
    ensures !Held(b) && !Held(r) ==> r == b
    // a new source takes the first free slot
    ensures var k := SourceOf(arg);
            k != b.down0 && k != b.down1 && b.down0 == 0 ==> r.down0 == k && r.down1 == b.down1
    ensures var k := SourceOf(arg);
            k != b.down0 && k != b.down1 && b.down0 != 0 && b.down1 == 0 ==> r.down1 == k && r.down0 == b.down0
    // a press from any source but 0 makes an idle action held, with its press edge
    ensures Valid(b) && !Held(b) && SourceOf(arg) != 0 ==> Held(r) && r.state & PressEdge != 0
  {
    var k := SourceOf(arg);
    if k == b.down0 || k == b.down1 then b
    else if b.down0 == 0 then
      var b1 := b.(down0 := k);
      if Held(b1) then b1 else StartHold(b1, stamp, now)
    else if b.down1 == 0 then
      var b1 := b.(down1 := k);
      if Held(b1) then b1 else StartHold(b1, stamp, now)
    else b
  }

  /**
   * A release command for this button. Without a source it forcibly clears
   * both slots; with one it empties the matching slot, and when that was the
   * last slot of a held button it adds the held time to `msec`.
   */
  function Release(b: Button, arg: Option<int>, stamp: int): (r: Button)
    ensures Valid(b) ==> Valid(r)
    ensures r.downtime == b.downtime
    ensures arg.None? ==> r == b.(down0 := 0, down1 := 0, state := ReleaseEdge)
    ensures arg.Some? && arg.value != b.down0 && arg.value != b.down1 ==> r == b
    // while another source still holds it, the button stays held
    ensures Valid(b) && arg.Some? && (r.down0 != 0 || r.down1 != 0) ==> r.state == b.state && r.msec == b.msec
    // the last source going up ends the hold and books its time
    ensures Held(b) && arg.Some? && !Held(r) ==>
              r.msec == b.msec + (if stamp != 0 then stamp - b.downtime else 10) &&
              r.state == (b.state & !HeldBit) | ReleaseEdge
    // a release empties the slot of its source
    ensures arg.Some? && arg.value == b.down0 ==> r.down0 == 0 && r.down1 == b.down1
    ensures arg.Some? && arg.value != b.down0 && arg.value == b.down1 ==> r.down1 == 0 && r.down0 == b.down0
    // the release of the only source holding the action ends the hold
    ensures var k := SourceOf(arg);
            var lastHolder := (k == b.down0 && b.down1 == 0) || (k == b.down1 && b.down0 == 0);
            Valid(b) && Held(b) && arg.Some? && k != 0 && lastHolder ==> !Held(r)
  {
    match arg
    case None => b.(down0 := 0, down1 := 0, state := ReleaseEdge)
    case Some(k) =>
      if b.down0 != k && b.down1 != k then b
      else
        var b1 := if b.down0 == k then b.(down0 := 0) else b.(down1 := 0);
        if b1.down0 != 0 || b1.down1 != 0 || !Held(b1) then b1
        else b1.(msec := b1.msec + (if stamp != 0 then stamp - b1.downtime else 10),
                 state := (b1.state & !HeldBit) | ReleaseEdge)
  }

  /**
   * A press command on button `b`: the source is the command's first
   * argument (-1 when typed at the console) and `stamp` its second (0 when
   * absent); `now` is the frame time. Returns the updated record.
   */
  method KeyDown(b: Button, arg: Option<int>, stamp: int, now: int) returns (r: Button)
    ensures r == Press(b, arg, stamp, now)
  {
    r := b;
    var k := if arg.Some? then arg.value else -1;
    if k == r.down0 || k == r.down1 {
      return;
    }
    if r.down0 == 0 {
      r := r.(down0 := k);
    } else if r.down1 == 0 {
      r := r.(down1 := k);
    } else {
      return;
    }
    if r.state & HeldBit != 0 {
      return;
    }
    r := r.(downtime := stamp);
    if r.downtime == 0 {
      r := r.(downtime := now - 100);
    }
    r := r.(state := r.state | HeldBit | PressEdge);
  }

  /**
   * A release command on button `b`, with the source and release time as
   * for KeyDown. Returns the updated record.
   */
  method KeyUp(b: Button, arg: Option<int>, stamp: int) returns (r: Button)
    ensures r == Release(b, arg, stamp)
  {
    r := b;
    if arg.None? {
      r := r.(down0 := 0, down1 := 0, state := ReleaseEdge);
      return;
    }
    var k := arg.value;
    if r.down0 == k {
      r := r.(down0 := 0);
    } else if r.down1 == k {
      r := r.(down1 := 0);
    } else {
      return;
    }
    if r.down0 != 0 || r.down1 != 0 {
      return;
    }
    if r.state & HeldBit == 0 {
      return;
    }
    if stamp != 0 {
      r := r.(msec := r.msec + (stamp - r.downtime));
    } else {
      r := r.(msec := r.msec + 10);
    }
    r := r.(state := r.state & !HeldBit);
    r := r.(state := r.state | ReleaseEdge);
  }

  /** Held now or pressed since the last frame: what sets an action's bit in the move command. */
  predicate Triggered(b: Button) {
    b.state & (HeldBit | PressEdge) != 0
  }

  /** The button once its press edge has been passed on to a command. */
  function ClearPressEdge(b: Button): (r: Button)
    ensures r.state & PressEdge == 0
    ensures Held(r) == Held(b) && Valid(r) == Valid(b)
    ensures r.(state := b.state) == b
    ensures r.state & ReleaseEdge == b.state & ReleaseEdge
  {
    b.(state := b.state & !PressEdge)
  }

  /**
   * A press and release that both fall between two frames still reach the
   * next command (through the press edge), and only that one.
   */
  lemma TapIsSeenOnce(b: Button, k: int, t1: int, t2: int, now: int)
    requires Valid(b) && !Held(b) && k != 0
    ensures var tapped := Release(Press(b, Some(k), t1, now), Some(k), t2);
            !Held(tapped) && Triggered(tapped) && !Triggered(ClearPressEdge(tapped))
  {
  }

  /** A button released from the console (no source) within the frame it was pressed in never reaches a command. */
  lemma ConsoleReleaseDropsTap(b: Button, k: int, t1: int, now: int)
    requires Valid(b) && !Held(b) && k != 0
    ensures !Triggered(Release(Press(b, Some(k), t1, now), None, 0))
  {
  }

  /** Held milliseconds a sample at time `now` reports: booked time plus, while held, the time since the press stamp. */
  function Drained(b: Button, now: int): int {
    b.msec + (if Held(b) then now - b.downtime else 0)
  }

  /** The button after a per-frame sample at time `now`. */
  function SampleButton(b: Button, now: int): (r: Button)
    ensures r.msec == 0 && r.state == b.state & HeldBit
    ensures r.down0 == b.down0 && r.down1 == b.down1 && Held(r) == Held(b)
    ensures Valid(b) ==> Valid(r)
    // what a sample reports is gone: a second sample at the same instant reports nothing
    ensures Drained(r, now) == 0
  {
    var r := b.(state := b.state & HeldBit, msec := 0);
    if Held(r) then r.(downtime := now) else r
  }

  /**
   * The fraction of a frame of `frameMsec` milliseconds that `msec` held
   * milliseconds make, clamped to [0, 1]. A frame length of 0 (before the
   * first frame) divides by zero in floating point: a positive count gives
   * +inf and clamps to 1, a negative one -inf and clamps to 0, and 0/0 is
   * a NaN, read here as 0.
   */
  function Fraction(msec: int, frameMsec: int): (f: real)
    requires frameMsec >= 0
    ensures 0.0 <= f <= 1.0
    ensures msec <= 0 ==> f == 0.0
    ensures msec > 0 && msec >= frameMsec ==> f == 1.0
    ensures f > 0.0 <==> msec > 0
  {
    if msec <= 0 then 0.0
    else if msec >= frameMsec then 1.0
    else msec as real / frameMsec as real
  }

  /** The fraction of a frame of `frameMsec` milliseconds a sample of `b` at time `now` reports. */
  function Reported(b: Button, now: int, frameMsec: int): (f: real)
    requires frameMsec >= 0
    ensures 0.0 <= f <= 1.0
    ensures f > 0.0 <==> Drained(b, now) > 0
  {
    Fraction(Drained(b, now), frameMsec)
  }

  /** Within the frame, the fraction times the frame length gives back the held milliseconds. */
  lemma FractionScales(msec: int, frameMsec: int)
    requires 0 <= msec <= frameMsec && frameMsec > 0
    ensures Fraction(msec, frameMsec) * frameMsec as real == msec as real
  {
    if 0 < msec < frameMsec {
      var v := msec as real / frameMsec as real;
      assert v * frameMsec as real == msec as real;
    }
  }

  /**
   * The per-frame sample of button `b` at frame time `now` for a frame of
   * `frameMsec` milliseconds: the fraction of the frame it was held, and the
   * record with its edges cleared and its held time drained.
   */
  method KeyState(b: Button, now: int, frameMsec: int) returns (f: real, r: Button)
    requires frameMsec >= 0
    ensures r == SampleButton(b, now)
    ensures f == Reported(b, now, frameMsec)
  {
    r := b.(state := b.state & HeldBit);
    var msec := r.msec;
    r := r.(msec := 0);
    if r.state != 0 {
      msec := msec + (now - r.downtime);
      r := r.(downtime := now);
    }
    if frameMsec == 0 {
      f := if msec > 0 then 1.0 else 0.0;
    } else {
      f := msec as real / frameMsec as real;
      assert f * frameMsec as real == msec as real;
      assert msec <= 0 ==> f <= 0.0;
      if msec >= frameMsec {
        assert f * frameMsec as real >= 1.0 * frameMsec as real;
      }
      if f < 0.0 {
        f := 0.0;
      }
      if f > 1.0 {
        f := 1.0;
      }
    }
  }

  /** The counts reported by samples at the instants `times`, with no press or release between them. */
  function Reports(b: Button, times: seq<int>): (r: seq<int>)
    ensures |r| == |times|
    ensures |times| > 0 ==> r[0] == Drained(b, times[0])
    decreases |times|
  {
    if times == [] then [] else [Drained(b, times[0])] + Reports(SampleButton(b, times[0]), times[1..])
  }

  /** The button after samples at the instants `times`. */
  function AfterSamples(b: Button, times: seq<int>): (r: Button)
    ensures r.down0 == b.down0 && r.down1 == b.down1 && Held(r) == Held(b)
    ensures times != [] ==> r.msec == 0 && r.state == b.state & HeldBit
    decreases |times|
  {
    if times == [] then b else AfterSamples(SampleButton(b, times[0]), times[1..])
  }

  function Sum(s: seq<int>): int {
    if s == [] then 0 else s[0] + Sum(s[1..])
  }

  /**
   * A button held through a run of samples reports, in total, exactly its
   * booked time plus the time from its press stamp to the last sample, and
   * ends stamped at that last sample: no interval is counted twice.
   */
  lemma {:induction false} HeldTimeTelescopes(b: Button, times: seq<int>)
    requires Held(b) && times != []
    ensures Sum(Reports(b, times)) == b.msec + times[|times| - 1] - b.downtime
    ensures AfterSamples(b, times) ==
              b.(msec := 0, state := b.state & HeldBit, downtime := times[|times| - 1])
    decreases |times|
  {
    var b1 := SampleButton(b, times[0]);
    if |times| == 1 {
      assert Reports(b, times) == [Drained(b, times[0])];
    } else {
      HeldTimeTelescopes(b1, times[1..]);
      assert times[1..][|times[1..]| - 1] == times[|times| - 1];
      assert Reports(b, times)[1..] == Reports(b1, times[1..]);
    }
  }

  /** A button that is up reports its booked time once and nothing after. */
  lemma {:induction false} IdleReportsOnce(b: Button, times: seq<int>)
    requires !Held(b) && times != []
    ensures Sum(Reports(b, times)) == b.msec
    ensures AfterSamples(b, times) == b.(msec := 0, state := b.state & HeldBit)
    decreases |times|
  {
    var b1 := SampleButton(b, times[0]);
    if |times| > 1 {
      IdleReportsOnce(b1, times[1..]);
      assert Reports(b, times)[1..] == Reports(b1, times[1..]);
    } else {
      assert Reports(b, times) == [b.msec];
    }
  }

  /**
   * A press at `pressAt` and a release at `releaseAt` by the same source,
   * with any number of frame samples between them and one after: every held
   * millisecond is reported exactly once, whatever the sampling.
   */
  lemma {:induction false} HoldIsReportedExactlyOnce(b: Button, k: int, pressAt: int, times: seq<int>,
                                                     releaseAt: int, lastSample: int, now: int)
    requires Valid(b) && !Held(b) && b.msec == 0 && k != 0
    requires pressAt != 0 && releaseAt != 0
    ensures var held := Press(b, Some(k), pressAt, now);
            var released := Release(AfterSamples(held, times), Some(k), releaseAt);
            Sum(Reports(held, times)) + Drained(released, lastSample) == releaseAt - pressAt
  {
    var held := Press(b, Some(k), pressAt, now);
    assert held == b.(down0 := k, downtime := pressAt, state := b.state | HeldBit | PressEdge);
    if times == [] {
      assert Reports(held, times) == [];
    } else {
      HeldTimeTelescopes(held, times);
    }
  }

  /** Two sources: the button is held until both have gone up, in either order. */
  lemma TwoSourcesHoldUntilBothRelease(b: Button, x: int, y: int, t1: int, t2: int, now: int, u1: int, u2: int)
    requires Valid(b) && !Held(b) && x != 0 && y != 0 && x != y
    ensures var both := Press(Press(b, Some(x), t1, now), Some(y), t2, now);
            Held(both) && both.downtime == Press(b, Some(x), t1, now).downtime &&
            Held(Release(both, Some(x), u1)) && Held(Release(both, Some(y), u1)) &&
            !Held(Release(Release(both, Some(x), u1), Some(y), u2)) &&
            !Held(Release(Release(both, Some(y), u1), Some(x), u2))
  {
  }

  /** A third source is rejected and both original sources stay registered. */
  lemma ThirdSourceRejected(b: Button, x: int, y: int, z: int, t: int, now: int)
    requires Valid(b) && !Held(b) && x != 0 && y != 0 && x != y
    ensures var both := Press(Press(b, Some(x), t, now), Some(y), t, now);
            Press(both, Some(z), t, now) == both && both.down0 == x && both.down1 == y
  {
  }

  /**
   * Source id 0 can never hold a button: 0 is also the empty-slot mark, so
   * its press is taken for a repeat or finds no free slot.
   */
  lemma SourceZeroNeverRegisters(b: Button, t: int, now: int)
    ensures Press(b, Some(0), t, now) == b
  {
  }

  /** A release naming source 0 changes nothing on a consistent button. */
  lemma ReleaseOfZeroIsNoOp(b: Button, t: int)
    requires Valid(b)
    ensures Release(b, Some(0), t) == b
  {
  }
}
