/**
 * The client's per-frame input pipeline: the sixteen continuous actions
 * driven by console commands, the sampling of their held time into a move
 * command, the command's finishing (buttons, duration, pitch clamp,
 * quantized angles, impulse), the ring of recent commands and the message
 * sent to the server.
 *
 * The routines of other subsystems the pipeline calls (angle quantizing,
 * the mouse and controller move, the message writers and checksum) are
 * given as function values; the calls whose effect lies outside the client
 * input state (transmitting, the userinfo update, ending a cinematic) are
 * recorded in order in `calls`.
 */
module ClInput {
  import opened Common
  import opened KButton
  import opened UserCmds
  import opened CmdRing
  import opened MovePackets
  import opened KeyActions

  /** Settings read each frame: the cl_speed_* scales, cl_run, cl_anglespeedkey and cl_nodelta. */
  datatype Settings = Settings(speedForward: real, speedSide: real, speedUp: real, speedYaw: real, speedPitch: real,
                               run: real, angleSpeedKey: real, noDelta: real)

  /**
   * What the rest of the client supplies to a frame's command: the frame
   * time in seconds, whether any key is down while keys go to the game, the
   * light level, and the server's pitch correction already converted to
   * degrees.
   */
  datatype FrameInput = FrameInput(frametime: real, anyKeyDown: bool, keyDestGame: bool, lightLevel: byte,
                                   deltaPitch: real)

  /** The three view angles (pitch, yaw, roll) in degrees. */
  datatype Look = Look(pitch: real, yaw: real, roll: real)

  /**
   * Routines of other subsystems: the conversion of an angle to its 16-bit
   * form, the mouse and controller move (which may change both the command
   * and the view), and the message writers.
   */
  datatype Externals = Externals(angleToShort: real -> int, inMove: (UserCmd, Look) -> (UserCmd, Look), codec: Codec)

  /** The connection states of the client, in order. */
  datatype ConnState = Uninitialized | Disconnected | Connecting | Connected | Active

  /** The connection and game state the send step reads. */
  datatype Session = Session(state: ConnState, outgoingSequence: int, pendingReliable: int, curtime: int,
                             lastSent: int, realtime: int, frameValid: bool, serverFrame: int,
                             demoWaiting: bool, cinematicTime: int, attractLoop: bool)

  /** Calls the send step makes into other subsystems, in order. */
  datatype Call = Transmit(data: seq<byte>) | SendUserinfo | FinishCinematic

  /** The fractions of the frame each movement action was held. */
  datatype Fracs = Fracs(left: real, right: real, forward: real, back: real, lookUp: real, lookDown: real,
                         moveLeft: real, moveRight: real, up: real, down: real)

  /** The fractions of the frame the movement actions of `bs` report when sampled at `now`. */
  function FrameFractions(bs: Buttons, now: int, frameMsec: int): Fracs
    requires frameMsec >= 0
  {
    Fracs(Reported(bs.left, now, frameMsec), Reported(bs.right, now, frameMsec),
          Reported(bs.forward, now, frameMsec), Reported(bs.back, now, frameMsec),
          Reported(bs.lookUp, now, frameMsec), Reported(bs.lookDown, now, frameMsec),
          Reported(bs.moveLeft, now, frameMsec), Reported(bs.moveRight, now, frameMsec),
          Reported(bs.up, now, frameMsec), Reported(bs.down, now, frameMsec))
  }

  /** Degrees per unit of angle speed this frame: the frame time, scaled while the speed action is held. */
  function TurnSpeed(frametime: real, speedHeld: bool, cv: Settings): real {
    if speedHeld then frametime * cv.angleSpeedKey else frametime
  }

  /** An angle turned one way by `minus` and back by `plus`, each a fraction of a frame at `speed` times `rate`. */
  function Turn(angle: real, speed: real, rate: real, minus: real, plus: real): (r: real)
    ensures minus == plus ==> r == angle
    ensures speed * rate > 0.0 ==> (r > angle <==> plus > minus)
  {
    angle - speed * rate * minus + speed * rate * plus
  }

  /**
   * The view after the keyboard turn: left and right turn the yaw unless
   * strafe is held, forward and back tilt the pitch only while
   * keyboard-look is held, look up and look down always tilt it; roll stays.
   */
  function Turned(view: Look, strafe: bool, klook: bool, speed: real, cv: Settings, fr: Fracs): (r: Look)
    ensures r.roll == view.roll
    ensures strafe ==> r.yaw == view.yaw
    ensures fr.right == fr.left ==> r.yaw == view.yaw
    ensures !klook && fr.lookUp == fr.lookDown ==> r.pitch == view.pitch
    // right and left turn the yaw while strafe is up, toward the larger fraction
    ensures !strafe && speed * cv.speedYaw > 0.0 ==> (r.yaw > view.yaw <==> fr.left > fr.right)
    // look down and look up tilt the pitch in any case
    ensures !klook && speed * cv.speedPitch > 0.0 ==> (r.pitch > view.pitch <==> fr.lookDown > fr.lookUp)
    // forward and back tilt it too while keyboard-look is held
    ensures klook && speed * cv.speedPitch > 0.0 && fr.lookUp == fr.lookDown ==>
              (r.pitch > view.pitch <==> fr.back > fr.forward)
    ensures klook && speed * cv.speedPitch > 0.0 && fr.forward == fr.back ==>
              (r.pitch > view.pitch <==> fr.lookDown > fr.lookUp)
  {
    var yaw := if strafe then view.yaw else Turn(view.yaw, speed, cv.speedYaw, fr.right, fr.left);
    var p := if klook then Turn(view.pitch, speed, cv.speedPitch, fr.forward, fr.back) else view.pitch;
    Look(Turn(p, speed, cv.speedPitch, fr.lookUp, fr.lookDown), yaw, view.roll)
  }

  /** A movement magnitude pushed one way by `plus` and the other by `minus`, each a fraction of a frame at `scale`. */
  function Axis(move: real, scale: real, plus: real, minus: real): (r: real)
    ensures plus == minus ==> r == move
    ensures scale > 0.0 ==> (r > move <==> plus > minus)
  {
    move + scale * plus - scale * minus
  }

  /**
   * The basic move command: all fields zero but the angles, copied
   * (truncated) from the view, and the three movement magnitudes; left and
   * right strafe only while strafe is held, forward and back move only while
   * keyboard-look is up, and the gate doubles all three.
   */
  function BaseMoveCmd(view: Look, strafe: bool, klook: bool, doubled: bool, cv: Settings, fr: Fracs): (c: UserCmd)
    ensures c.msec == 0 && c.buttons == 0 && c.impulse == 0 && c.lightlevel == 0
    ensures c.angles == [Trunc(view.pitch), Trunc(view.yaw), Trunc(view.roll)]
    ensures klook ==> c.forwardmove == 0.0
    ensures fr.up == fr.down ==> c.upmove == 0.0
    ensures !strafe && fr.moveRight == fr.moveLeft ==> c.sidemove == 0.0
    // the enabled halves: each pair of actions pushes its magnitude toward the larger fraction
    ensures !klook && cv.speedForward > 0.0 ==> (c.forwardmove > 0.0 <==> fr.forward > fr.back)
    ensures cv.speedUp > 0.0 ==> (c.upmove > 0.0 <==> fr.up > fr.down)
    ensures !strafe && cv.speedSide > 0.0 ==> (c.sidemove > 0.0 <==> fr.moveRight > fr.moveLeft)
    ensures strafe && cv.speedSide > 0.0 && fr.moveRight == fr.moveLeft ==> (c.sidemove > 0.0 <==> fr.right > fr.left)
    ensures strafe && cv.speedSide > 0.0 && fr.right == fr.left ==> (c.sidemove > 0.0 <==> fr.moveRight > fr.moveLeft)
  {
    var side := if strafe then Axis(0.0, cv.speedSide, fr.right, fr.left) else 0.0;
    var forward := if klook then 0.0 else Axis(0.0, cv.speedForward, fr.forward, fr.back);
    var c := NullCmd.(angles := [Trunc(view.pitch), Trunc(view.yaw), Trunc(view.roll)],
                      forwardmove := forward, sidemove := Axis(side, cv.speedSide, fr.moveRight, fr.moveLeft),
                      upmove := Axis(0.0, cv.speedUp, fr.up, fr.down));
    if doubled then c.(forwardmove := c.forwardmove * 2.0, sidemove := c.sidemove * 2.0, upmove := c.upmove * 2.0)
    else c
  }

  /** The speed gate scales all three magnitudes by exactly two and touches nothing else. */
  lemma GateDoublesMovement(view: Look, strafe: bool, klook: bool, cv: Settings, fr: Fracs)
    ensures var slow := BaseMoveCmd(view, strafe, klook, false, cv, fr);
            var fast := BaseMoveCmd(view, strafe, klook, true, cv, fr);
            fast == slow.(forwardmove := 2.0 * slow.forwardmove, sidemove := 2.0 * slow.sidemove,
                          upmove := 2.0 * slow.upmove)
  {
  }

  /**
   * The button byte of a finished command: the attack and use bits are
   * raised when the action was held or pressed since the last frame, the
   * any-key bit when a key is down while keys go to the game; the other
   * bits stay as the move left them.
   */
  function CmdButtons(bits: bv8, attack: Button, use: Button, fi: FrameInput): (r: bv8)
    ensures r & ButtonAttack != 0 <==> bits & ButtonAttack != 0 || Triggered(attack)
    ensures r & ButtonUse != 0 <==> bits & ButtonUse != 0 || Triggered(use)
    ensures r & ButtonAny != 0 <==> bits & ButtonAny != 0 || (fi.anyKeyDown && fi.keyDestGame)
    ensures r & !(ButtonAttack | ButtonUse | ButtonAny) == bits & !(ButtonAttack | ButtonUse | ButtonAny)
  {
    var b1 := if Triggered(attack) then bits | ButtonAttack else bits;
    var b2 := if Triggered(use) then b1 | ButtonUse else b1;
    if fi.anyKeyDown && fi.keyDestGame then b2 | ButtonAny else b2
  }

  /**
   * The finished command: its button byte, the duration, angles, impulse
   * and light level are filled in and the movement is kept.
   */
  function FinishedCmd(c0: UserCmd, attack: Button, use: Button, fi: FrameInput, impulse: int,
                       angles: seq<int>): (c: UserCmd)
    ensures Triggered(attack) ==> c.buttons & ButtonAttack != 0
    ensures Triggered(use) ==> c.buttons & ButtonUse != 0
    ensures c.msec == CommandMsec(Trunc(fi.frametime * 1000.0))
    ensures c.angles == angles && c.lightlevel == fi.lightLevel
    ensures 0 <= impulse < 256 ==> c.impulse as int == impulse
    // the whole button byte is figured from the incoming bits, both records and the any-key test
    ensures c.buttons == CmdButtons(c0.buttons, attack, use, fi)
    // the impulse register is stored in a byte, modulo 256
    ensures c.impulse == ToByte(impulse)
    ensures c.forwardmove == c0.forwardmove && c.sidemove == c0.sidemove && c.upmove == c0.upmove
  {
    c0.(buttons := CmdButtons(c0.buttons, attack, use, fi), msec := CommandMsec(Trunc(fi.frametime * 1000.0)),
        angles := angles, impulse := ToByte(impulse), lightlevel := fi.lightLevel)
  }

  /** A frame's command and the view it leaves behind. */
  datatype Frame = Frame(cmd: UserCmd, view: Look)

  /**
   * The finishing of a frame: the pitch is clamped against the server's
   * correction, and the command is finished with the angles of the clamped
   * view.
   */
  function FinishFrame(c0: UserCmd, view: Look, attack: Button, use: Button, fi: FrameInput, impulse: int,
                       angleToShort: real -> int): (f: Frame)
    ensures -89.0 <= f.view.pitch + WrappedDelta(fi.deltaPitch) <= 89.0
    ensures f.view.yaw == view.yaw && f.view.roll == view.roll
    ensures f.cmd.angles == [angleToShort(f.view.pitch), angleToShort(f.view.yaw), angleToShort(f.view.roll)]
    // the pitch moves only as the clamp moves it: an in-range pitch is kept
    ensures f.view.pitch == ClampedPitch(view.pitch, fi.deltaPitch)
    // the command is finished from the incoming one, with those angles
    ensures f.cmd == FinishedCmd(c0, attack, use, fi, impulse, f.cmd.angles)
  {
    var v := view.(pitch := ClampedPitch(view.pitch, fi.deltaPitch));
    Frame(FinishedCmd(c0, attack, use, fi, impulse, [angleToShort(v.pitch), angleToShort(v.yaw), angleToShort(v.roll)]), v)
  }

  /**
   * The command built from the action records `bs`, the view, the impulse
   * register and the two frame clocks: the keyboard turn, the basic move,
   * the mouse and controller move, the pitch clamp and the finishing.
   */
  function CreateFrame(bs: Buttons, view: Look, impulse: int, now: int, previous: int,
                       fi: FrameInput, cv: Settings, ext: Externals): (f: Frame)
    ensures -89.0 <= f.view.pitch + WrappedDelta(fi.deltaPitch) <= 89.0
    ensures f.cmd.angles == [ext.angleToShort(f.view.pitch), ext.angleToShort(f.view.yaw), ext.angleToShort(f.view.roll)]
    ensures Triggered(bs.attack) ==> f.cmd.buttons & ButtonAttack != 0
    ensures Triggered(bs.use) ==> f.cmd.buttons & ButtonUse != 0
    ensures 0 <= impulse < 256 ==> f.cmd.impulse as int == impulse
    ensures f.cmd.impulse == ToByte(impulse)
    ensures fi.anyKeyDown && fi.keyDestGame ==> f.cmd.buttons & ButtonAny != 0
    ensures f.cmd.msec == CommandMsec(Trunc(fi.frametime * 1000.0))
    ensures f.cmd.lightlevel == fi.lightLevel
  {
    var fr := FrameFractions(bs, now, FrameMsec(now, previous));
    var strafe, klook, speedHeld := Held(bs.strafe), Held(bs.klook), Held(bs.speed);
    var turned := Turned(view, strafe, klook, TurnSpeed(fi.frametime, speedHeld, cv), cv, fr);
    var base := BaseMoveCmd(turned, strafe, klook, SpeedGate(speedHeld, Trunc(cv.run)), cv, fr);
    var moved := ext.inMove(base, turned);
    FinishFrame(moved.0, moved.1, bs.attack, bs.use, fi, impulse, ext.angleToShort)
  }

  /** An action's record after a frame's command is built at `now`. */
  function ButtonAfterFrame(id: ButtonId, b: Button, now: int): (r: Button)
    ensures KButton.Valid(b) ==> KButton.Valid(r)
    ensures Held(r) == Held(b) && r.down0 == b.down0 && r.down1 == b.down1
    ensures IsMovement(id) ==> r.msec == 0 && Drained(r, now) == 0 && r.state & (PressEdge | ReleaseEdge) == 0
    ensures id == Attack || id == Use ==> r.state & PressEdge == 0 && r.msec == b.msec
    // attack and use lose only their press edge: the release edge, the press time and all else stay
    ensures id == Attack || id == Use ==> r.state == b.state & !PressEdge && r.(state := b.state) == b
    ensures !IsMovement(id) && id != Attack && id != Use ==> r == b
  {
    if IsMovement(id) then SampleButton(b, now)
    else if id == Attack || id == Use then ClearPressEdge(b)
    else b
  }

  /**
   * The action records after the basic move at `now`: the view turn and the
   * move between them sample every movement action once; the other six
   * records stay as they are.
   */
  function SampledMovement(bs: Buttons, now: int): (r: Buttons)
    ensures forall id :: IsMovement(id) ==> Get(r, id) == SampleButton(Get(bs, id), now)
    ensures forall id :: !IsMovement(id) ==> Get(r, id) == Get(bs, id)
  {
    bs.(left := SampleButton(bs.left, now), right := SampleButton(bs.right, now),
        forward := SampleButton(bs.forward, now), back := SampleButton(bs.back, now),
        lookUp := SampleButton(bs.lookUp, now), lookDown := SampleButton(bs.lookDown, now),
        moveLeft := SampleButton(bs.moveLeft, now), moveRight := SampleButton(bs.moveRight, now),
        up := SampleButton(bs.up, now), down := SampleButton(bs.down, now))
  }

  /**
   * All action records after a frame's command is built at `now`: the
   * movement actions sampled, the press edges of attack and use cleared by
   * the finishing, and the other four records as they were.
   */
  function ButtonsAfterFrame(bs: Buttons, now: int): (r: Buttons)
    ensures forall id :: Get(r, id) == ButtonAfterFrame(id, Get(bs, id), now)
  {
    SampledMovement(bs, now).(attack := ClearPressEdge(bs.attack), use := ClearPressEdge(bs.use))
  }

  /** Every action record is consistent: held exactly when some source holds it. */
  ghost predicate Consistent(bs: Buttons) {
    forall id :: KButton.Valid(Get(bs, id))
  }

  /** Building a frame's command keeps every action record consistent. */
  lemma {:induction false} FrameKeepsButtonsValid(bs: Buttons, now: int)
    requires Consistent(bs)
    ensures Consistent(ButtonsAfterFrame(bs, now))
  {
    forall id ensures KButton.Valid(Get(ButtonsAfterFrame(bs, now), id)) {
      assert KButton.Valid(Get(bs, id));
    }
  }

  /** A press or release command keeps every action record consistent. */
  lemma {:induction false} CommandKeepsButtonsValid(bs: Buttons, id: ButtonId, arg: Option<int>, stamp: int, now: int)
    requires Consistent(bs)
    ensures Consistent(With(bs, id, Press(Get(bs, id), arg, stamp, now)))
    ensures Consistent(With(bs, id, Release(Get(bs, id), arg, stamp)))
  {
    assert KButton.Valid(Get(bs, id));
  }

  /**
   * The down action after +toggledown from source `arg`: the action is
   * sampled, and released when the sample reports any held time, pressed
   * otherwise.
   */
  function Toggled(b: Button, arg: Option<int>, stamp: int, now: int, frameMsec: int): (r: Button)
    requires frameMsec >= 0
    ensures KButton.Valid(b) ==> KButton.Valid(r)
    // a toggle that finds held time never starts a new press
    ensures Drained(b, now) > 0 ==> r.state & PressEdge == 0
    // a toggle that finds an idle action with nothing booked presses it
    ensures KButton.Valid(b) && !Held(b) && Drained(b, now) <= 0 && SourceOf(arg) != 0 ==>
              Held(r) && r.state & PressEdge != 0
  {
    var sampled := SampleButton(b, now);
    if Reported(b, now, frameMsec) > 0.0 then Release(sampled, arg, stamp) else Press(sampled, arg, stamp, now)
  }

  /**
   * +toggledown flips the down action: an idle action with no booked time
   * becomes held, and an action held by that one source since before `now`
   * goes up. The sample drains the held time the toggle found.
   */
  lemma ToggleFlips(b: Button, k: int, stamp: int, now: int, frameMsec: int)
    requires KButton.Valid(b) && frameMsec >= 0 && k != 0
    ensures !Held(b) && b.msec <= 0 ==> Held(Toggled(b, Some(k), stamp, now, frameMsec))
    ensures Held(b) && b.msec >= 0 && b.downtime < now && b.down0 == k && b.down1 == 0 ==>
              !Held(Toggled(b, Some(k), stamp, now, frameMsec)) &&
              Toggled(b, Some(k), stamp, now, frameMsec).msec == (if stamp != 0 then stamp - now else 10)
  {
  }

  /** Whether the send step goes on to the move message in this connection state. */
  predicate SendsMove(state: ConnState) {
    state != Disconnected && state != Connecting && state != Connected
  }

  /** A connected client sends a keepalive when reliable data waits or nothing was sent for over 100 ms. */
  predicate KeepaliveDue(s: Session) {
    s.pendingReliable != 0 || s.curtime - s.lastSent > 100
  }

  /** A button press ends a running cinematic after its first second, unless it is the attract loop. */
  predicate SkipsCinematic(c: UserCmd, s: Session) {
    c.buttons != 0 && s.cinematicTime > 0 && !s.attractLoop && s.realtime - s.cinematicTime > 1000
  }

  /** The frame the server deltas its next message against; -1 asks for a full one. */
  function Reference(noDelta: real, s: Session): (r: int)
    ensures r == -1 || r == s.serverFrame
    ensures noDelta != 0.0 || !s.frameValid || s.demoWaiting ==> r == -1
    ensures noDelta == 0.0 && s.frameValid && !s.demoWaiting ==> r == s.serverFrame
  {
    if noDelta != 0.0 || !s.frameValid || s.demoWaiting then -1 else s.serverFrame
  }

  /**
   * The calls of the send step in game: the pending userinfo update, the
   * cinematic skip when the newest command `latest` ends one, and last the
   * move message `packet`.
   */
  function MoveCalls(s: Session, userinfoModified: bool, latest: UserCmd, packet: seq<byte>): (r: seq<Call>)
    ensures |r| >= 1 && r[|r| - 1] == Transmit(packet)
    ensures forall i :: 0 <= i < |r| - 1 ==> !r[i].Transmit?
    ensures SendUserinfo in r <==> userinfoModified
    ensures FinishCinematic in r <==> SkipsCinematic(latest, s)
    // each call is made once, the userinfo update first
    ensures |r| == (if userinfoModified then 1 else 0) + (if SkipsCinematic(latest, s) then 1 else 0) + 1
    ensures userinfoModified ==> r[0] == SendUserinfo
  {
    (if userinfoModified then [SendUserinfo] else []) +
    (if SkipsCinematic(latest, s) then [FinishCinematic] else []) +
    [Transmit(packet)]
  }

  /**
   * The calls the send step makes once the command ring is `ring`: none
   * before the connection is made, at most an empty keepalive while
   * connected, and otherwise the move calls with the message carrying the
   * three newest commands.
   */
  function SendCalls(s: Session, noDelta: real, userinfoModified: bool, ring: seq<UserCmd>, codec: Codec): (r: seq<Call>)
    requires |ring| == CmdBackup
    // outside the game at most an empty keepalive goes out
    ensures !SendsMove(s.state) ==> r == [] || r == [Transmit([])]
    // in game exactly one message goes out, the last call
    ensures SendsMove(s.state) ==> |r| >= 1 && r[|r| - 1].Transmit? && forall i :: 0 <= i < |r| - 1 ==> !r[i].Transmit?
  {
    if s.state == Disconnected || s.state == Connecting then []
    else if s.state == Connected then (if KeepaliveDue(s) then [Transmit([])] else [])
    else
      var n := s.outgoingSequence;
      MoveCalls(s, userinfoModified, ring[SlotOf(n)],
                MovePacket(codec, Reference(noDelta, s), ring[SlotOf(n - 2)], ring[SlotOf(n - 1)], ring[SlotOf(n)], n))
  }

  /**
   * The send step by connection state: nothing before the connection is
   * made; while connected, an empty keepalive exactly when it is due; in
   * game, the userinfo update exactly when it is pending, the cinematic
   * skip exactly when a button ends it, and as the last and only
   * transmission the move message with the three newest commands.
   */
  lemma SendStateMachine(s: Session, noDelta: real, userinfoModified: bool, ring: seq<UserCmd>, codec: Codec)
    requires |ring| == CmdBackup
    ensures var r := SendCalls(s, noDelta, userinfoModified, ring, codec);
            (s.state == Disconnected || s.state == Connecting ==> r == []) &&
            (s.state == Connected ==> (r == [] || r == [Transmit([])]) && (r != [] <==> KeepaliveDue(s))) &&
            (SendsMove(s.state) ==>
              var n := s.outgoingSequence;
              |r| >= 1 &&
              r[|r| - 1] == Transmit(MovePacket(codec, Reference(noDelta, s), ring[SlotOf(n - 2)],
                                                ring[SlotOf(n - 1)], ring[SlotOf(n)], n)) &&
              (SendUserinfo in r <==> userinfoModified) &&
              (FinishCinematic in r <==> SkipsCinematic(ring[SlotOf(n)], s)) &&
              (forall i :: 0 <= i < |r| - 1 ==> !r[i].Transmit?))
  {
  }


  /**
   * The client's input state: the records of the sixteen continuous
   * actions, the view, the impulse register, the frame clocks, the command
   * ring, and the calls made into other subsystems.
   */
  class Client {
    /** The sixteen kbutton_t records (in_mlook ... in_down), one per action. */
    var keys: Buttons
    const viewangles: array<real>
    const cmds: array<UserCmd>
    const cmdTime: array<int>
    var impulse: int
    /** The time of the current frame, set by the system layer. */
    var sysFrameTime: int
    var frameMsec: int
    var oldSysFrameTime: int
    /** The last command built. */
    var cmd: UserCmd
    var userinfoModified: bool
    var calls: seq<Call>

    ghost predicate Valid()
      reads this`frameMsec
    {
      viewangles.Length == 3 && cmds.Length == CmdBackup && cmdTime.Length == CmdBackup &&
      0 <= frameMsec <= 200
    }

    function View(): Look
      reads viewangles
      requires viewangles.Length == 3
    {
      Look(viewangles[0], viewangles[1], viewangles[2])
    }

    /** The state at start-up: every record idle, every value zero, the ring of all-zero commands. */
    constructor ()
      ensures Valid()
      ensures keys == AllIdle
      ensures View() == Look(0.0, 0.0, 0.0) && cmds[..] == seq(CmdBackup, _ => NullCmd)
      ensures impulse == 0 && sysFrameTime == 0 && frameMsec == 0 && oldSysFrameTime == 0
      ensures !userinfoModified && calls == []
    {
      keys := AllIdle;
      viewangles := new real[3](_ => 0.0);
      cmds := new UserCmd[CmdBackup](_ => NullCmd);
      cmdTime := new int[CmdBackup](_ => 0);
      impulse := 0;
      sysFrameTime := 0;
      frameMsec := 0;
      oldSysFrameTime := 0;
      cmd := NullCmd;
      userinfoModified := false;
      calls := [];
    }

    /** The +action command of action `id`, from key `source` pressed at `stamp` (0 when absent). */
    method ButtonDown(id: ButtonId, source: Option<int>, stamp: int)
      modifies this`keys
      ensures keys == With(old(keys), id, Press(Get(old(keys), id), source, stamp, sysFrameTime))
      ensures Consistent(old(keys)) ==> Consistent(keys)
    {
      if Consistent(keys) {
        CommandKeepsButtonsValid(keys, id, source, stamp, sysFrameTime);
      }
      var b := KeyDown(Get(keys, id), source, stamp, sysFrameTime);
      keys := With(keys, id, b);
    }

    /** The -action command of action `id`; without a source it clears the action outright. */
    method ButtonUp(id: ButtonId, source: Option<int>, stamp: int)
      modifies this`keys
      ensures keys == With(old(keys), id, Release(Get(old(keys), id), source, stamp))
      ensures Consistent(old(keys)) ==> Consistent(keys)
    {
      if Consistent(keys) {
        CommandKeepsButtonsValid(keys, id, source, stamp, sysFrameTime);
      }
      var b := KeyUp(Get(keys, id), source, stamp);
      keys := With(keys, id, b);
    }

    /** The impulse command: the argument waits in the register for the next command. */
    method Impulse(value: int)
      modifies this`impulse
      ensures impulse == value
    {
      impulse := value;
    }

    /** The yaw part of the keyboard turn: right and left turn the view unless strafe is held. */
    method TurnYaw(speed: real, cv: Settings)
      requires Valid()
      modifies this`keys, viewangles
      ensures var now, strafe := sysFrameTime, Held(old(keys.strafe));
              keys == old(keys).(right := if strafe then old(keys.right) else SampleButton(old(keys.right), now),
                                 left := if strafe then old(keys.left) else SampleButton(old(keys.left), now))
      ensures View() == old(View()).(yaw := if Held(old(keys.strafe)) then old(viewangles[1]) else
                          Turn(old(viewangles[1]), speed, cv.speedYaw, Reported(old(keys.right), sysFrameTime, frameMsec),
                               Reported(old(keys.left), sysFrameTime, frameMsec)))
    {
      var yaw := viewangles[1];
      if keys.strafe.state & HeldBit == 0 {
        var right, left, r, l;
        right, r := KeyState(keys.right, sysFrameTime, frameMsec);
        left, l := KeyState(keys.left, sysFrameTime, frameMsec);
        keys := keys.(right := r, left := l);
        yaw := Turn(yaw, speed, cv.speedYaw, right, left);
      }
      viewangles[1] := yaw;
    }

    /**
     * The pitch part of the keyboard turn: forward and back tilt the view
     * only while keyboard-look is held, look up and look down always.
     */
    method TurnPitch(speed: real, cv: Settings)
      requires Valid()
      modifies this`keys, viewangles
      ensures var now, klook := sysFrameTime, Held(old(keys.klook));
              keys == old(keys).(forward := if klook then SampleButton(old(keys.forward), now) else old(keys.forward),
                                 back := if klook then SampleButton(old(keys.back), now) else old(keys.back),
                                 lookUp := SampleButton(old(keys.lookUp), now),
                                 lookDown := SampleButton(old(keys.lookDown), now))
      ensures var now := sysFrameTime;
              var p := if Held(old(keys.klook)) then Turn(old(viewangles[0]), speed, cv.speedPitch,
                                                          Reported(old(keys.forward), now, frameMsec),
                                                          Reported(old(keys.back), now, frameMsec))
                       else old(viewangles[0]);
              View() == old(View()).(pitch := Turn(p, speed, cv.speedPitch, Reported(old(keys.lookUp), now, frameMsec),
                                                   Reported(old(keys.lookDown), now, frameMsec)))
    {
      var pitch := viewangles[0];
      if keys.klook.state & HeldBit != 0 {
        var forward, back, f, b;
        forward, f := KeyState(keys.forward, sysFrameTime, frameMsec);
        back, b := KeyState(keys.back, sysFrameTime, frameMsec);
        keys := keys.(forward := f, back := b);
        pitch := Turn(pitch, speed, cv.speedPitch, forward, back);
      }
      var up, down, u, d;
      up, u := KeyState(keys.lookUp, sysFrameTime, frameMsec);
      down, d := KeyState(keys.lookDown, sysFrameTime, frameMsec);
      keys := keys.(lookUp := u, lookDown := d);
      pitch := Turn(pitch, speed, cv.speedPitch, up, down);
      viewangles[0] := pitch;
    }

    /** The keyboard turn of the view at the angle speed of this frame, sampling the actions it reads. */
    method AdjustAngles(frametime: real, cv: Settings)
      requires Valid()
      modifies this`keys, viewangles
      ensures var now, strafe, klook := sysFrameTime, Held(old(keys.strafe)), Held(old(keys.klook));
              keys == old(keys).(right := if strafe then old(keys.right) else SampleButton(old(keys.right), now),
                                 left := if strafe then old(keys.left) else SampleButton(old(keys.left), now),
                                 forward := if klook then SampleButton(old(keys.forward), now) else old(keys.forward),
                                 back := if klook then SampleButton(old(keys.back), now) else old(keys.back),
                                 lookUp := SampleButton(old(keys.lookUp), now),
                                 lookDown := SampleButton(old(keys.lookDown), now))
      ensures View() == Turned(old(View()), Held(old(keys.strafe)), Held(old(keys.klook)),
                               TurnSpeed(frametime, Held(old(keys.speed)), cv), cv,
                               FrameFractions(old(keys), sysFrameTime, frameMsec))
    {
      var speed := frametime;
      if keys.speed.state & HeldBit != 0 {
        speed := speed * cv.angleSpeedKey;
      }
      assert speed == TurnSpeed(frametime, Held(keys.speed), cv);
      ghost var fr := FrameFractions(keys, sysFrameTime, frameMsec);
      TurnYaw(speed, cv);
      TurnPitch(speed, cv);
      assert View() == Turned(old(View()), Held(old(keys.strafe)), Held(old(keys.klook)), speed, cv, fr);
    }

    /**
     * The sideways magnitude of the basic move: left and right strafe only
     * while strafe is held, the strafe actions always.
     */
    method SideMove(cv: Settings) returns (side: real)
      requires Valid()
      modifies this`keys
      ensures var now, strafe := sysFrameTime, Held(old(keys.strafe));
              keys == old(keys).(right := if strafe then SampleButton(old(keys.right), now) else old(keys.right),
                                 left := if strafe then SampleButton(old(keys.left), now) else old(keys.left),
                                 moveRight := SampleButton(old(keys.moveRight), now),
                                 moveLeft := SampleButton(old(keys.moveLeft), now))
      ensures var now := sysFrameTime;
              side == Axis(if Held(old(keys.strafe)) then Axis(0.0, cv.speedSide, Reported(old(keys.right), now, frameMsec),
                                                               Reported(old(keys.left), now, frameMsec))
                           else 0.0,
                           cv.speedSide, Reported(old(keys.moveRight), now, frameMsec),
                           Reported(old(keys.moveLeft), now, frameMsec))
    {
      side := 0.0;
      if keys.strafe.state & HeldBit != 0 {
        var right, left, r, l;
        right, r := KeyState(keys.right, sysFrameTime, frameMsec);
        left, l := KeyState(keys.left, sysFrameTime, frameMsec);
        keys := keys.(right := r, left := l);
        side := Axis(side, cv.speedSide, right, left);
      }
      var moveRight, moveLeft, mr, ml;
      moveRight, mr := KeyState(keys.moveRight, sysFrameTime, frameMsec);
      moveLeft, ml := KeyState(keys.moveLeft, sysFrameTime, frameMsec);
      keys := keys.(moveRight := mr, moveLeft := ml);
      side := Axis(side, cv.speedSide, moveRight, moveLeft);
    }

    /** The vertical magnitude of the basic move, from the up and down actions. */
    method UpMove(cv: Settings) returns (up: real)
      requires Valid()
      modifies this`keys
      ensures keys == old(keys).(up := SampleButton(old(keys.up), sysFrameTime),
                                 down := SampleButton(old(keys.down), sysFrameTime))
      ensures up == Axis(0.0, cv.speedUp, Reported(old(keys.up), sysFrameTime, frameMsec),
                         Reported(old(keys.down), sysFrameTime, frameMsec))
    {
      var upward, downward, u, d;
      upward, u := KeyState(keys.up, sysFrameTime, frameMsec);
      downward, d := KeyState(keys.down, sysFrameTime, frameMsec);
      keys := keys.(up := u, down := d);
      up := Axis(0.0, cv.speedUp, upward, downward);
    }

    /** The forward magnitude of the basic move: forward and back move only while keyboard-look is up. */
    method ForwardMove(cv: Settings) returns (forward: real)
      requires Valid()
      modifies this`keys
      ensures var now, klook := sysFrameTime, Held(old(keys.klook));
              keys == old(keys).(forward := if klook then old(keys.forward) else SampleButton(old(keys.forward), now),
                                 back := if klook then old(keys.back) else SampleButton(old(keys.back), now))
      ensures forward == if Held(old(keys.klook)) then 0.0 else
                Axis(0.0, cv.speedForward, Reported(old(keys.forward), sysFrameTime, frameMsec),
                     Reported(old(keys.back), sysFrameTime, frameMsec))
    {
      forward := 0.0;
      if keys.klook.state & HeldBit == 0 {
        var ahead, back, f, b;
        ahead, f := KeyState(keys.forward, sysFrameTime, frameMsec);
        back, b := KeyState(keys.back, sysFrameTime, frameMsec);
        keys := keys.(forward := f, back := b);
        forward := Axis(forward, cv.speedForward, ahead, back);
      }
    }

    /**
     * The basic move: the keyboard turn, then a command whose magnitudes
     * come from the movement actions the turn did not sample, doubled by the
     * speed gate. Between them the turn and the move sample every movement
     * action exactly once, whatever strafe and keyboard-look are doing.
     */
    method BaseMove(frametime: real, cv: Settings) returns (c: UserCmd)
      requires Valid()
      modifies this`keys, viewangles
      ensures keys == SampledMovement(old(keys), sysFrameTime)
      ensures View() == Turned(old(View()), Held(keys.strafe), Held(keys.klook), TurnSpeed(frametime, Held(keys.speed), cv),
                               cv, FrameFractions(old(keys), sysFrameTime, frameMsec))
      ensures c == BaseMoveCmd(View(), Held(keys.strafe), Held(keys.klook), SpeedGate(Held(keys.speed), Trunc(cv.run)), cv,
                               FrameFractions(old(keys), sysFrameTime, frameMsec))
    {
      ghost var fr := FrameFractions(keys, sysFrameTime, frameMsec);
      AdjustAngles(frametime, cv);
      var angles := [Trunc(viewangles[0]), Trunc(viewangles[1]), Trunc(viewangles[2])];
      var side := SideMove(cv);
      assert side == Axis(if Held(keys.strafe) then Axis(0.0, cv.speedSide, fr.right, fr.left) else 0.0,
                          cv.speedSide, fr.moveRight, fr.moveLeft);
      var up := UpMove(cv);
      assert up == Axis(0.0, cv.speedUp, fr.up, fr.down);
      var forward := ForwardMove(cv);
      assert forward == if Held(keys.klook) then 0.0 else Axis(0.0, cv.speedForward, fr.forward, fr.back);
      c := NullCmd.(angles := angles, forwardmove := forward, sidemove := side, upmove := up);
      if SpeedGate(keys.speed.state & HeldBit != 0, Trunc(cv.run)) {
        c := c.(forwardmove := c.forwardmove * 2.0, sidemove := c.sidemove * 2.0, upmove := c.upmove * 2.0);
      }
      assert c == BaseMoveCmd(View(), Held(keys.strafe), Held(keys.klook), SpeedGate(Held(keys.speed), Trunc(cv.run)), cv, fr);
    }

    /**
     * Keeps the corrected pitch (local pitch plus the server's correction)
     * within [-89, 89] by moving the local pitch alone.
     */
    method ClampPitch(rawDelta: real)
      requires Valid()
      modifies viewangles
      ensures View() == old(View()).(pitch := ClampedPitch(old(viewangles[0]), rawDelta))
    {
      var pitchDelta := rawDelta;
      if pitchDelta > 180.0 {
        pitchDelta := pitchDelta - 360.0;
      }
      var pitch := viewangles[0];
      if pitch + pitchDelta < -360.0 {
        pitch := pitch + 360.0;
      }
      if pitch + pitchDelta > 360.0 {
        pitch := pitch - 360.0;
      }
      if pitch + pitchDelta > 89.0 {
        pitch := 89.0 - pitchDelta;
      }
      if pitch + pitchDelta < -89.0 {
        pitch := -89.0 - pitchDelta;
      }
      viewangles[0] := pitch;
    }

    /**
     * The button byte of the finished command: attack and use report a hold
     * or a press since the last frame, and their press edges are consumed;
     * the any-key bit follows the key state.
     */
    method FigureButtons(bits0: bv8, fi: FrameInput) returns (bits: bv8)
      modifies this`keys
      ensures bits == CmdButtons(bits0, old(keys.attack), old(keys.use), fi)
      ensures keys == old(keys).(attack := ClearPressEdge(old(keys.attack)), use := ClearPressEdge(old(keys.use)))
    {
      bits := bits0;
      if keys.attack.state & (HeldBit | PressEdge) != 0 {
        bits := bits | ButtonAttack;
      }
      keys := keys.(attack := keys.attack.(state := keys.attack.state & !PressEdge));
      if keys.use.state & (HeldBit | PressEdge) != 0 {
        bits := bits | ButtonUse;
      }
      keys := keys.(use := keys.use.(state := keys.use.state & !PressEdge));
      if fi.anyKeyDown && fi.keyDestGame {
        bits := bits | ButtonAny;
      }
    }

    /** The view angles quantized one by one, in order. */
    method QuantizedAngles(angleToShort: real -> int) returns (angles: seq<int>)
      requires Valid()
      ensures angles == [angleToShort(viewangles[0]), angleToShort(viewangles[1]), angleToShort(viewangles[2])]
    {
      angles := [];
      for i := 0 to 3
        invariant |angles| == i
        invariant forall j :: 0 <= j < i ==> angles[j] == angleToShort(viewangles[j])
      {
        angles := angles + [angleToShort(viewangles[i])];
      }
    }

    /**
     * Finishes the command: button bits from attack and use (whose press
     * edges are then consumed), the duration, the pitch clamp, the quantized
     * angles, the impulse (whose register is then emptied) and the light level.
     */
    method FinishMove(c0: UserCmd, fi: FrameInput, angleToShort: real -> int) returns (c: UserCmd)
      requires Valid()
      modifies this`keys, this`impulse, viewangles
      ensures Frame(c, View()) == FinishFrame(c0, old(View()), old(keys.attack), old(keys.use), fi, old(impulse), angleToShort)
      ensures keys == old(keys).(attack := ClearPressEdge(old(keys.attack)), use := ClearPressEdge(old(keys.use)))
      ensures impulse == 0
    {
      var bits := FigureButtons(c0.buttons, fi);
      c := c0.(buttons := bits);
      var ms := Trunc(fi.frametime * 1000.0);
      if ms > 250 {
        ms := 100;
      }
      c := c.(msec := ToByte(ms));
      ClampPitch(fi.deltaPitch);
      var angles := QuantizedAngles(angleToShort);
      c := c.(angles := angles);
      c := c.(impulse := ToByte(impulse));
      impulse := 0;
      c := c.(lightlevel := fi.lightLevel);
    }

    /** The frame length: the unsigned difference of the two frame clocks, kept within [1, 200]. */
    method MeasureFrame()
      modifies this`frameMsec
      ensures frameMsec == FrameMsec(sysFrameTime, oldSysFrameTime)
    {
      var elapsed := Bits32(sysFrameTime - oldSysFrameTime);
      if elapsed < 1 {
        elapsed := 1;
      }
      if elapsed > 200 {
        elapsed := 200;
      }
      frameMsec := elapsed;
    }

    /** The mouse and controller move: it adjusts the command and the view, which is written back. */
    method ExternalMove(base: UserCmd, inMove: (UserCmd, Look) -> (UserCmd, Look)) returns (moved: UserCmd)
      requires Valid()
      modifies viewangles
      ensures (moved, View()) == inMove(base, old(View()))
    {
      var r := inMove(base, View());
      viewangles[0], viewangles[1], viewangles[2] := r.1.pitch, r.1.yaw, r.1.roll;
      moved := r.0;
    }

    /**
     * Builds this frame's command: the frame length from the two frame
     * clocks, the basic move, the mouse and controller move, the finishing;
     * then the current frame time becomes the previous one.
     */
    method CreateCmd(fi: FrameInput, cv: Settings, ext: Externals) returns (c: UserCmd)
      requires Valid()
      modifies this`keys, this`impulse, this`frameMsec, this`oldSysFrameTime, viewangles
      ensures Valid()
      ensures frameMsec == FrameMsec(sysFrameTime, old(oldSysFrameTime)) && oldSysFrameTime == sysFrameTime
      ensures var f := CreateFrame(old(keys), old(View()), old(impulse), sysFrameTime, old(oldSysFrameTime), fi, cv, ext);
              c == f.cmd && View() == f.view
      ensures keys == ButtonsAfterFrame(old(keys), sysFrameTime)
      ensures Consistent(old(keys)) ==> Consistent(keys)
      ensures impulse == 0
    {
      if Consistent(keys) {
        FrameKeepsButtonsValid(keys, sysFrameTime);
      }
      MeasureFrame();
      var base := BaseMove(fi.frametime, cv);
      var moved := ExternalMove(base, ext.inMove);
      c := FinishMove(moved, fi, ext.angleToShort);
      oldSysFrameTime := sysFrameTime;
    }

    /** centerview: the local pitch that puts the corrected pitch level. */
    method CenterView(rawDelta: real)
      requires Valid()
      modifies viewangles
      ensures View() == old(View()).(pitch := -rawDelta)
      ensures viewangles[0] + rawDelta == 0.0
    {
      viewangles[0] := -rawDelta;
    }

    /** force_centerview: the local pitch set to zero. */
    method ForceCenterView()
      requires Valid()
      modifies viewangles
      ensures View() == old(View()).(pitch := 0.0)
    {
      viewangles[0] := 0.0;
    }

    /** -mlook: mouse-look goes up and the view is centred. */
    method MLookUp(source: Option<int>, stamp: int, rawDelta: real)
      requires Valid()
      modifies this`keys, viewangles
      ensures keys == old(keys).(mlook := Release(old(keys.mlook), source, stamp))
      ensures View() == old(View()).(pitch := -rawDelta)
    {
      var b := KeyUp(keys.mlook, source, stamp);
      keys := keys.(mlook := b);
      CenterView(rawDelta);
    }

    /** +toggledown: releases the down action if a sample finds it held, presses it otherwise. */
    method ToggleDown(source: Option<int>, stamp: int)
      requires Valid()
      modifies this`keys
      ensures keys == old(keys).(down := Toggled(old(keys.down), source, stamp, sysFrameTime, frameMsec))
    {
      var f, b;
      f, b := KeyState(keys.down, sysFrameTime, frameMsec);
      if f > 0.0 {
        b := KeyUp(b, source, stamp);
      } else {
        b := KeyDown(b, source, stamp, sysFrameTime);
      }
      keys := keys.(down := b);
    }

    /**
     * The in-game part of the send step: the pending userinfo update (the
     * flag is consumed), the cinematic skip, and the move message with the
     * three newest commands of the ring.
     */
    method SendMove(s: Session, noDelta: real, codec: Codec)
      requires Valid() && Bounded(codec)
      modifies this`userinfoModified, this`calls
      ensures var n := s.outgoingSequence;
              calls == old(calls) + MoveCalls(s, old(userinfoModified), cmds[SlotOf(n)],
                                              MovePacket(codec, Reference(noDelta, s), cmds[SlotOf(n - 2)],
                                                         cmds[SlotOf(n - 1)], cmds[SlotOf(n)], n))
      ensures !userinfoModified
    {
      var n := s.outgoingSequence;
      if userinfoModified {
        userinfoModified := false;
        calls := calls + [SendUserinfo];
      }
      var latest := cmds[SlotOf(n)];
      if latest.buttons != 0 && s.cinematicTime > 0 && !s.attractLoop && s.realtime - s.cinematicTime > 1000 {
        calls := calls + [FinishCinematic];
      }
      var reference := if noDelta != 0.0 || !s.frameValid || s.demoWaiting then -1 else s.serverFrame;
      var packet := BuildMovePacket(codec, reference, cmds[SlotOf(n - 2)], cmds[SlotOf(n - 1)], latest, n);
      calls := calls + [Transmit(packet)];
    }

    /**
     * The second half of the send step, once the new command is in its ring
     * slot: the calls SendCalls describes are made, and the userinfo flag is
     * consumed when the move message goes out.
     */
    method Deliver(s: Session, noDelta: real, codec: Codec)
      requires Valid() && Bounded(codec)
      modifies this`userinfoModified, this`calls
      ensures calls == old(calls) + SendCalls(s, noDelta, old(userinfoModified), cmds[..], codec)
      ensures userinfoModified == (old(userinfoModified) && !SendsMove(s.state))
    {
      if s.state == Disconnected || s.state == Connecting {
        return;
      }
      if s.state == Connected {
        if s.pendingReliable != 0 || s.curtime - s.lastSent > 100 {
          calls := calls + [Transmit([])];
        }
        return;
      }
      SendMove(s, noDelta, codec);
      ghost var ring, n := cmds[..], s.outgoingSequence;
      assert ring[SlotOf(n - 2)] == cmds[SlotOf(n - 2)] && ring[SlotOf(n - 1)] == cmds[SlotOf(n - 1)] &&
             ring[SlotOf(n)] == cmds[SlotOf(n)];
    }

    /**
     * The per-frame send step: the new command is built and stored in its
     * ring slot whatever the connection state, with its time; then the
     * second half sends what the connection state calls for.
     */
    method SendCmd(s: Session, fi: FrameInput, cv: Settings, ext: Externals)
      requires Valid() && Bounded(ext.codec)
      modifies this`keys, this`impulse, this`frameMsec, this`oldSysFrameTime, viewangles, cmds, cmdTime,
               this`cmd, this`userinfoModified, this`calls
      ensures Valid()
      ensures var f := CreateFrame(old(keys), old(View()), old(impulse), sysFrameTime, old(oldSysFrameTime), fi, cv, ext);
              cmd == f.cmd && View() == f.view && cmds[..] == Store(old(cmds[..]), s.outgoingSequence, f.cmd)
      ensures cmdTime[..] == old(cmdTime[..])[SlotOf(s.outgoingSequence) := s.realtime]
      ensures keys == ButtonsAfterFrame(old(keys), sysFrameTime) && impulse == 0
      ensures Consistent(old(keys)) ==> Consistent(keys)
      ensures frameMsec == FrameMsec(sysFrameTime, old(oldSysFrameTime)) && oldSysFrameTime == sysFrameTime
      ensures calls == old(calls) + SendCalls(s, cv.noDelta, old(userinfoModified), cmds[..], ext.codec)
      ensures userinfoModified == (old(userinfoModified) && !SendsMove(s.state))
    {
      var i := SlotOf(s.outgoingSequence);
      cmdTime[i] := s.realtime;
      var c := CreateCmd(fi, cv, ext);
      cmds[i] := c;
      cmd := c;
      Deliver(s, cv.noDelta, ext.codec);
    }
  }
}
