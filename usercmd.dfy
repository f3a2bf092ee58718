/**
 * The move command the client builds once per frame (usercmd_t) and the
 * rules that clamp its timing and the view pitch.
 */
module UserCmds {
  import opened Common

  /** Bits of the command's button byte, as the game protocol defines them. */
  const ButtonAttack: bv8 := 1
  const ButtonUse: bv8 := 2
  const ButtonAny: bv8 := 128

  /**
   * One move command. The angles are the three quantized view angles; the
   * three movement magnitudes are kept as reals (the protocol stores them
   * as 16-bit integers).
   */
  datatype UserCmd = UserCmd(msec: byte, buttons: bv8, angles: seq<int>,
                             forwardmove: real, sidemove: real, upmove: real,
                             impulse: byte, lightlevel: byte)

  /** The all-zero command, the base the oldest of the three sent commands is encoded against. */
  const NullCmd: UserCmd := UserCmd(0, 0, [0, 0, 0], 0.0, 0.0, 0.0, 0, 0)

  /**
   * Length of the frame being sampled: the unsigned difference of the two
   * frame clocks, kept within [1, 200].
   */
  function FrameMsec(now: int, previous: int): (r: int)
    ensures 1 <= r <= 200
    ensures 1 <= now - previous <= 200 ==> r == now - previous
    ensures now == previous ==> r == 1
    ensures 200 < now - previous < TwoTo32 ==> r == 200
    // the difference is unsigned: a clock that steps back reads as a long frame
    ensures -TwoTo32 + 200 < now - previous < 0 ==> r == 200
  {
    var d := Bits32(now - previous);
    if d < 1 then 1 else if d > 200 then 200 else d
  }

  /**
   * The duration a command covers, from the measured frame time in whole
   * milliseconds: an unreasonable value above 250 becomes exactly 100, and
   * the result is stored in a byte.
   */
  function CommandMsec(ms: int): (r: byte)
    ensures 0 <= ms <= 250 ==> r as int == ms
    ensures ms > 250 ==> r == 100
    ensures ms >= 0 ==> r <= 250
  {
    ToByte(if ms > 250 then 100 else ms)
  }

  /** The server's pitch correction brought into (-180, 180] when it arrives in [0, 360). */
  function WrappedDelta(raw: real): (d: real)
    ensures d == raw || d == raw - 360.0
    ensures d <= 180.0 <==> raw <= 540.0
    ensures raw > -180.0 ==> d > -180.0
  {
    if raw > 180.0 then raw - 360.0 else raw
  }

  /**
   * The local view pitch after clamping: the corrected pitch (local pitch
   * plus the server's delta) ends within [-89, 89], and only the local
   * pitch is moved to get there.
   */
  function ClampedPitch(pitch: real, rawDelta: real): (r: real)
    ensures -89.0 <= r + WrappedDelta(rawDelta) <= 89.0
    ensures -89.0 <= pitch + WrappedDelta(rawDelta) <= 89.0 ==> r == pitch
  {
    var d := WrappedDelta(rawDelta);
    var p1 := if pitch + d < -360.0 then pitch + 360.0 else pitch;
    var p2 := if p1 + d > 360.0 then p1 - 360.0 else p1;
    var p3 := if p2 + d > 89.0 then 89.0 - d else p2;
    if p3 + d < -89.0 then -89.0 - d else p3
  }

  /**
   * How the clamp treats a corrected pitch outside [-89, 89]: one full turn
   * beyond ±360 is taken back first, anything else lands on the nearer bound.
   */
  lemma PitchClampCases(pitch: real, rawDelta: real)
    ensures var d := WrappedDelta(rawDelta);
            var s := pitch + d;
            var r := ClampedPitch(pitch, rawDelta);
            (89.0 < s <= 360.0 ==> r + d == 89.0) &&
            (-360.0 <= s < -89.0 ==> r + d == -89.0) &&
            (360.0 < s <= 449.0 ==> r == pitch - 360.0) &&
            (-449.0 <= s < -360.0 ==> r == pitch + 360.0) &&
            (s > 449.0 ==> r + d == 89.0) &&
            (s < -449.0 ==> r + d == -89.0)
  {
  }

  /**
   * C's `bit ^ x` for a bit 0 or 1: flipping the lowest bit of x's two's
   * complement moves an even x up by one and an odd x down by one.
   */
  function XorBit(bit: int, x: int): (r: int)
    requires bit == 0 || bit == 1
    ensures bit == 0 ==> r == x
    ensures bit == 1 ==> r != x && (r - x == 1 || x - r == 1) && r % 2 != x % 2
    // only the lowest bit changes: the bits above it are kept, the lowest one flips
    ensures bit == 1 ==> r / 2 == x / 2 && r % 2 == 1 - x % 2
  {
    if bit == 0 then x else if x % 2 == 0 then x + 1 else x - 1
  }

  /**
   * Whether the speed key and the run setting double the movement: the held
   * bit of the speed key exclusive-or the run setting, truncated to an int.
   */
  function SpeedGate(speedHeld: bool, run: int): bool {
    XorBit(if speedHeld then 1 else 0, run) != 0
  }

  /**
   * The movement doubles exactly when the run setting differs from the held
   * bit: with run 0 or 1 that is "exactly one of speed key and run mode",
   * and any other run value doubles always.
   */
  lemma SpeedGateIsExclusiveOr(speedHeld: bool, run: int)
    ensures SpeedGate(speedHeld, run) <==> run != (if speedHeld then 1 else 0)
    ensures run == 0 || run == 1 ==> (SpeedGate(speedHeld, run) <==> speedHeld != (run == 1))
    ensures run != 0 && run != 1 ==> SpeedGate(speedHeld, run)
  {
  }
}
