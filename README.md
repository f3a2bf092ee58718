# Client input pipeline of the Quake 2 client, in Dafny

This project models the per-frame input pipeline of the Quake 2 client
(`client/cl_input.c`):

- **The sixteen continuous actions.** These are `+forward`, `+attack`, `+klook` and so on. Each has a
  `kbutton_t` record with two source slots, a press time, the held
  milliseconds not yet reported, and three state bits: held, press edge and
  release edge. Console commands press and release an action. Up to two
  input sources may hold it at once, and a release by one of them leaves it
  up only when both have released it. A release typed at the console, with
  no source, forces it up at once and forgets both sources.
- **The per-frame sample (`CL_KeyState`).** It turns an action's held time into
  a fraction of the frame. It clears the edges and drains the held time, so a
  press and a release by one source, both carrying time stamps, are
  reported as exactly the time between them. A release typed at the
  console books no time, and events without a time stamp book fixed
  defaults instead.
- **The keyboard turn and the basic move** (`CL_AdjustAngles`, `CL_BaseMove`).
  Strafe and keyboard-look decide which actions turn the view and which
  move the player. The speed key exclusive-or `cl_run` doubles the move.
- **The finishing of the command** (`CL_FinishMove`, `CL_ClampPitch`). It
  sets the attack and use bits from `state & 3`, then consumes the press
  edge. It sets the any-key bit and the duration (more than 250 ms becomes
  100). It clamps the corrected pitch to ±89 degrees, quantizes the angles,
  consumes the impulse register and copies the light level.
- **`CL_CreateCmd`.** It takes the frame length as the unsigned difference of
  the two frame clocks, clamped to [1, 200].
- **The send step (`CL_SendCmd`).** The command goes into ring slot
  `sequence & (CMD_BACKUP-1)` with its time (`CMD_BACKUP` is 64 in this
  model). What follows depends on the connection
  state:
  - disconnected or connecting: nothing;
  - connected: an empty keepalive, when reliable data waits or nothing was
    sent for over 100 ms;
  - otherwise: the userinfo update, the cinematic skip, and the move
    message. The message is the opcode, a checksum byte, the reference
    frame, and the commands of sequence numbers n-2, n-1 and n, each
    delta-encoded against the one before it. The checksum covers the bytes
    after it and is salted with the sequence number.

Modules:

- `Common` (`common.dfy`): the optional value, bytes, 32-bit unsigned wrap,
  and float-to-int truncation.
- `KButton` (`kbutton.dfy`): the `kbutton_t` record. It holds `KeyDown`,
  `KeyUp` and `CL_KeyState` as methods on the record, the functions that
  specify them, and the lemmas about press, release and sampling.
- `UserCmds` (`usercmd.dfy`): `usercmd_t`, the frame-length and duration
  clamps, the pitch clamp, and the speed gate.
- `CmdRing` (`cmdring.dfy`): the command ring of `CMD_BACKUP` slots, fixed at 64 here.
- `MovePackets` (`movepacket.dfy`): `sizebuf_t` as a class over a byte array,
  the move message, and the method that assembles it in place.
- `KeyActions` (`actions.dfy`): the sixteen actions as one record.
- `ClInput` (`clinput.dfy`): the client state as a class `Client`. Its methods
  follow the C functions one by one, and each is proved against a
  specification function of the old state (`CreateFrame`,
  `ButtonsAfterFrame`, `SendCalls`, ...).

All source paths below are relative to the repository root.

## Model

| member | source | states |
|---|---|---|
| KButton.StartHold | src/main/Quake2/Sources/client/cl_input.c:89-99 | the up-to-down transition stamps the press time (the stamp given, or 100 ms before the frame time when none is given), raises held and the press edge, and changes no other field |
| KButton.SourceOf | src/main/Quake2/Sources/client/cl_input.c:69-74 | the definition of the source a command names: its parsed first argument, or -1 (the console) when it has none |
| KButton.Press | src/main/Quake2/Sources/client/cl_input.c:64-100 | a press keeps the slots consistent with the held bit and never touches the held time. A repeat from a registered source changes nothing; nor does a third source (both slots taken). A new source takes the first free slot. A press from any source but 0 makes an idle action held with its press edge, stamping the time (now-100 when none is given); a second source joining a held action leaves the bits and the press time alone |
| KButton.KeyDown | src/main/Quake2/Sources/client/cl_input.c:64-100 | the statement-by-statement update of the record yields exactly `Press` |
| KButton.Release | src/main/Quake2/Sources/client/cl_input.c:102-145 | a release keeps the slots consistent with the held bit. Without a source it clears both slots and sets the state to the release edge alone. An unknown source changes nothing; a known one empties its own slot. While another source still holds the action, the bits and time stay. The release of the only holding source ends the hold: it adds the time since the press (10 ms when no time is given), drops held and raises the release edge |
| KButton.KeyUp | src/main/Quake2/Sources/client/cl_input.c:102-145 | the statement-by-statement update of the record yields exactly `Release` |
| KButton.ClearPressEdge | src/main/Quake2/Sources/client/cl_input.c:463-470 | `state &= ~2` clears the press edge only; held, release edge, validity and all other fields are unchanged |
| KButton.Triggered | src/main/Quake2/Sources/client/cl_input.c:458-465 | the definition of the `state & 3` test: held now or pressed since the last frame; `TapIsSeenOnce` and `ConsoleReleaseDropsTap` state what it sees |
| KButton.TapIsSeenOnce | src/main/Quake2/Sources/client/cl_input.c:458-470 | a press and release by one source between two frames leave the action up but triggered for the next command, and no longer triggered once the finishing clears the press edge |
| KButton.ConsoleReleaseDropsTap | src/main/Quake2/Sources/client/cl_input.c:114-119 | a source-less release right after a press overwrites the press edge, so the tap never reaches a command |
| KButton.SampleButton | src/main/Quake2/Sources/client/cl_input.c:335-345 | the sample keeps only the held bit, zeroes the booked time and leaves the slots alone. A second sample at the same instant reports nothing |
| KButton.Drained | src/main/Quake2/Sources/client/cl_input.c:337-345 | the definition of the milliseconds a sample reports: the booked time plus, while held, the time since the press stamp |
| KButton.Fraction | src/main/Quake2/Sources/client/cl_input.c:347-351 | the reported fraction lies in [0, 1]; it is 0 for no held time, 1 for a whole frame or more, and positive exactly when the held time is |
| KButton.Reported | src/main/Quake2/Sources/client/cl_input.c:330-354 | the fraction a sample reports lies in [0, 1] and is positive exactly when the drained held time is |
| KButton.FractionScales | src/main/Quake2/Sources/client/cl_input.c:347 | within a frame, the fraction times the frame length gives back the held milliseconds |
| KButton.KeyState | src/main/Quake2/Sources/client/cl_input.c:330-354 | the C-style sample (clear edges, drain, add the time since the press while held, divide, clamp) returns exactly `Reported` and leaves exactly `SampleButton` |
| KButton.Reports | src/main/Quake2/Sources/client/cl_input.c:337-345 | a series of samples yields one count per sample, the first being the time drained at that instant |
| KButton.AfterSamples | src/main/Quake2/Sources/client/cl_input.c:335-345 | a series of samples keeps the slots and the held state; after at least one sample nothing is booked and only the held bit remains |
| KButton.HeldTimeTelescopes | src/main/Quake2/Sources/client/cl_input.c:340-345 | across any series of samples of a held action, the counts add up to the booked time plus the time from the press to the last sample (no drift, no double counting), and the action ends stamped at the last sample |
| KButton.IdleReportsOnce | src/main/Quake2/Sources/client/cl_input.c:335-338 | the reports of an action that is up, over any series of samples, add up to its booked time, and it ends with no edges and nothing booked |
| KButton.HoldIsReportedExactlyOnce | src/main/Quake2/Sources/client/cl_input.c:92-145 | for a press at t1 and a release at t2, with any samples in between and one after, the reported counts sum to exactly t2 - t1 |
| KButton.TwoSourcesHoldUntilBothRelease | src/main/Quake2/Sources/client/cl_input.c:76-133 | with two sources down the action stays held after either release and goes up after both, in either order; the second press keeps the first press time |
| KButton.ThirdSourceRejected | src/main/Quake2/Sources/client/cl_input.c:79-87 | a press from a third source leaves a two-source action unchanged |
| KButton.SourceZeroNeverRegisters | src/main/Quake2/Sources/client/cl_input.c:71-87 | a press naming source 0 (a non-numeric or zero argument) is taken for a repeat or finds no slot and changes nothing |
| KButton.ReleaseOfZeroIsNoOp | src/main/Quake2/Sources/client/cl_input.c:122-133 | a release naming source 0 changes nothing on a consistent record |
| Common.Bits32 | src/main/Quake2/Sources/client/cl_input.c:505 | the unsigned 32-bit difference is in [0, 2^32), equal to the difference when that is in range, and wrapped by 2^32 when it is negative |
| Common.ToByte | src/main/Quake2/Sources/client/cl_input.c:494 | storing an int in a byte keeps it when in [0, 256) and otherwise keeps it modulo 256 |
| Common.Trunc | src/main/Quake2/Sources/client/cl_input.c:478 | float-to-int conversion truncates toward zero |
| UserCmds.FrameMsec | src/main/Quake2/Sources/client/cl_input.c:505-509 | the frame length is in [1, 200]: the elapsed time when that is in [1, 200], 1 for no elapsed time, 200 for longer frames and also when the clock steps back |
| UserCmds.CommandMsec | src/main/Quake2/Sources/client/cl_input.c:478-485 | a duration up to 250 ms is kept, a longer one becomes 100 ms; never more than 250 for a non-negative input |
| UserCmds.WrappedDelta | src/main/Quake2/Sources/client/cl_input.c:436-438 | the server's pitch correction is itself or itself minus 360; it is at most 180 exactly when the raw value is at most 540 |
| UserCmds.ClampedPitch | src/main/Quake2/Sources/client/cl_input.c:434-450 | the corrected pitch ends within [-89, 89]; a pitch already within range is left alone |
| UserCmds.PitchClampCases | src/main/Quake2/Sources/client/cl_input.c:441-448 | a corrected pitch in (89, 360] or beyond 449 lands on 89, one in [-360, -89) or below -449 on -89; one in (360, 449] or [-449, -360) is taken back one full turn |
| UserCmds.XorBit | src/main/Quake2/Sources/client/cl_input.c:426 | exclusive-or with bit 0 keeps an int; with bit 1 it keeps the bits above the lowest (same half) and flips the lowest one |
| UserCmds.SpeedGate | src/main/Quake2/Sources/client/cl_input.c:426 | the definition of the gate `(held bit) ^ (int)cl_run`; `SpeedGateIsExclusiveOr` states what it means |
| UserCmds.SpeedGateIsExclusiveOr | src/main/Quake2/Sources/client/cl_input.c:425-431 | the move doubles exactly when the truncated `cl_run` differs from the speed key's held bit: "exactly one of speed key and run" for run 0 or 1, always for any other run value |
| CmdRing.SlotOf | src/main/Quake2/Sources/client/cl_input.c:593 | a sequence number's slot lies within the ring of `CmdBackup` slots |
| CmdRing.MaskIsRemainder | src/main/Quake2/Sources/client/cl_input.c:593 | masking a byte with `CmdBackup - 1` (63) keeps its remainder by `CmdBackup` |
| CmdRing.SlotIsMask | src/main/Quake2/Sources/client/cl_input.c:593 | `n & (CMD_BACKUP-1)` on the two's-complement low byte of n, also for negative n, selects the slot `SlotOf` gives |
| CmdRing.DistinctSlots | src/main/Quake2/Sources/client/cl_input.c:593-597 | sequence numbers less than `CmdBackup` apart never share a slot |
| CmdRing.Store | src/main/Quake2/Sources/client/cl_input.c:593-597 | storing a command puts it in its sequence number's slot and leaves every other slot unchanged |
| CmdRing.StoreRun | src/main/Quake2/Sources/client/cl_input.c:593-597 | storing a run of commands keeps the ring's size; its contents are stated by `StoreRunKeeps` and `RingHoldsLastCommands` |
| CmdRing.StoreRunKeeps | src/main/Quake2/Sources/client/cl_input.c:593-597 | slots no stored sequence number maps to keep their contents |
| CmdRing.RingHoldsLastCommands | src/main/Quake2/Sources/client/cl_input.c:590-597 | after consecutive commands are stored, each of the last `CmdBackup` is at its own sequence number's slot |
| CmdRing.LastThreeAreSent | src/main/Quake2/Sources/client/cl_input.c:655-670 | the commands read at n-2, n-1 and n are the last three stored |
| MovePackets.SizeBuf.constructor | src/main/Quake2/Sources/client/cl_input.c:627 | the buffer starts empty over a fresh array of the given size |
| MovePackets.SizeBuf.WriteByte | src/main/Quake2/Sources/client/cl_input.c:637-641 | writing a byte appends exactly it to the written prefix |
| MovePackets.SizeBuf.Write | src/main/Quake2/Sources/client/cl_input.c:646-670 | writing bytes appends exactly them, in order, to the written prefix |
| MovePackets.Deltas | src/main/Quake2/Sources/client/cl_input.c:655-670 | the definition of the three delta encodings in order: null to n-2, n-2 to n-1, n-1 to n |
| MovePackets.MovePacket | src/main/Quake2/Sources/client/cl_input.c:636-675 | the move message starts with the opcode, its checksum byte covers exactly the bytes after it, and those are the reference frame followed by the three deltas |
| MovePackets.MovePacketLayout | src/main/Quake2/Sources/client/cl_input.c:636-675 | the message is at most 128 bytes: the opcode, then the checksum of exactly the bytes after it, then the 4-byte reference frame, then the three deltas in order |
| MovePackets.WriteBody | src/main/Quake2/Sources/client/cl_input.c:643-670 | the reference frame and the three deltas (null to n-2, n-2 to n-1, n-1 to n) are appended in that order |
| MovePackets.BuildMovePacket | src/main/Quake2/Sources/client/cl_input.c:627-675 | assembling in the buffer and patching the reserved checksum byte yields exactly the specified move message |
| KeyActions.With | src/main/Quake2/Sources/client/cl_input.c:56-60 | replacing one action's record leaves the other fifteen unchanged |
| ClInput.Turn | src/main/Quake2/Sources/client/cl_input.c:377-392 | equal fractions for the two directions leave the angle unchanged; with a positive rate the angle grows exactly when the `plus` fraction is the larger |
| ClInput.Turned | src/main/Quake2/Sources/client/cl_input.c:367-394 | the keyboard turn never changes roll. With strafe held, or balanced right/left, yaw stays; without strafe (positive rate) yaw grows exactly when left outweighs right. Look down/look up tilt the pitch with or without keyboard-look (down when look down outweighs look up, for balanced forward/back under keyboard-look). Forward/back tilt it only under keyboard-look (back raising it, for balanced look keys); without keyboard-look and with balanced look keys the pitch stays |
| ClInput.Axis | src/main/Quake2/Sources/client/cl_input.c:409-422 | equal fractions for the two directions leave the magnitude unchanged; with a positive scale it grows exactly when the `plus` fraction is the larger |
| ClInput.FrameFractions | src/main/Quake2/Sources/client/cl_input.c:373-423 | the definition of the ten fractions the frame's movement actions report, one `Reported` each, all from the records as they were before the frame |
| ClInput.TurnSpeed | src/main/Quake2/Sources/client/cl_input.c:368-371 | the definition of the frame's angle speed: the frame time, scaled by `cl_anglespeedkey` while the speed action is held |
| ClInput.BaseMoveCmd | src/main/Quake2/Sources/client/cl_input.c:399-432 | the basic command has zero duration, buttons, impulse and light, and the truncated view angles. Forward is zero under keyboard-look; otherwise (positive scale) it is positive exactly when forward outweighs back. Up is positive exactly when up outweighs down. Side: move-right/move-left push it with or without strafe (positive exactly when move-right outweighs move-left, for balanced right/left under strafe); right/left push it only under strafe (positive exactly when right outweighs left, for balanced move keys) |
| ClInput.GateDoublesMovement | src/main/Quake2/Sources/client/cl_input.c:425-431 | the speed gate multiplies all three magnitudes by exactly two and changes nothing else |
| ClInput.CmdButtons | src/main/Quake2/Sources/client/cl_input.c:457-475 | the attack bit is set exactly when it was already set or attack was held or pressed since the last frame, and likewise for use. The any-key bit follows "a key is down while keys go to the game". No other bit changes |
| ClInput.FinishedCmd | src/main/Quake2/Sources/client/cl_input.c:452-499 | the finished command's button byte is `CmdButtons` of the incoming bits, the attack and use records and the any-key test (so each of the three bits is set exactly as the source sets it). Its duration is `CommandMsec` of the frame time in milliseconds. The impulse is the register modulo 256. It carries the given angles and the light level, and keeps the three magnitudes |
| ClInput.FinishFrame | src/main/Quake2/Sources/client/cl_input.c:487-499 | the finishing sets the pitch to exactly `ClampedPitch` of the old one (an in-range corrected pitch is kept, any other lands in [-89, 89]), keeps yaw and roll, and builds the command as `FinishedCmd` of the incoming one with the quantized angles of the clamped view |
| ClInput.CreateFrame | src/main/Quake2/Sources/client/cl_input.c:501-522 | the frame's command has the corrected pitch within [-89, 89] and the angles of its final view. Its duration is `CommandMsec` of the frame time. It carries the attack and use bits when those actions were triggered and the any-key bit when a key is down while keys go to the game. The impulse is the register modulo 256, and it carries the light level |
| ClInput.ButtonAfterFrame | src/main/Quake2/Sources/client/cl_input.c:399-470 | after a frame every movement action is sampled (no edges, nothing left to report). Attack and use lose only their press edge: the state is the old state without bit 2, and every other field, the release edge included, is unchanged. The other four are unchanged. No action's held state or slots change |
| ClInput.SampledMovement | src/main/Quake2/Sources/client/cl_input.c:373-423 | after the turn and the basic move, each of the ten movement actions is exactly its record sampled at the frame time, and the other six records are unchanged |
| ClInput.ButtonsAfterFrame | src/main/Quake2/Sources/client/cl_input.c:501-522 | the whole action table after a frame agrees with `ButtonAfterFrame` for every action |
| ClInput.Consistent | src/main/Quake2/Sources/client/cl_input.c:56-60 | the definition of the invariant of the sixteen records: each is held exactly when some source holds it |
| ClInput.FrameKeepsButtonsValid | src/main/Quake2/Sources/client/cl_input.c:399-470 | building a frame's command keeps every action's held bit consistent with its slots |
| ClInput.CommandKeepsButtonsValid | src/main/Quake2/Sources/client/cl_input.c:64-145 | every `+action` and `-action` command keeps every action's held bit consistent with its slots |
| ClInput.Toggled | src/main/Quake2/Sources/client/cl_input.c:188-194 | +toggledown samples the down action and then releases or presses it. It keeps the record consistent, never starts a press when it found held time, and presses an idle action with nothing booked (for any source but 0) |
| ClInput.ToggleFlips | src/main/Quake2/Sources/client/cl_input.c:188-194 | +toggledown makes an idle down action with no booked time held. An action held only by that same source since before the toggle goes up, with the release time (or 10 ms) booked after the sample drained the rest |
| ClInput.Reference | src/main/Quake2/Sources/client/cl_input.c:646-653 | the reference frame is -1 exactly when `cl_nodelta` is set, the frame is invalid or a demo waits, and otherwise the server frame |
| ClInput.SendsMove | src/main/Quake2/Sources/client/cl_input.c:601-616 | the definition of the state dispatch: the move message goes out in every state but disconnected, connecting and connected (the uninitialized state included) |
| ClInput.KeepaliveDue | src/main/Quake2/Sources/client/cl_input.c:606-616 | the definition of the keepalive condition: reliable data waits, or nothing was sent for more than 100 ms |
| ClInput.SkipsCinematic | src/main/Quake2/Sources/client/cl_input.c:629-634 | the definition of the cinematic skip: a button is down, a cinematic has run for more than a second, and it is not the attract loop |
| ClInput.MoveCalls | src/main/Quake2/Sources/client/cl_input.c:618-678 | in game the calls are, in order: the userinfo update exactly when pending (first), the cinematic skip exactly when the newest command ends one, and the move message last as the only transmission; each is made at most once |
| ClInput.SendCalls | src/main/Quake2/Sources/client/cl_input.c:601-678 | outside the game at most an empty keepalive goes out; in game exactly one message goes out, as the last call |
| ClInput.SendStateMachine | src/main/Quake2/Sources/client/cl_input.c:601-678 | no calls while disconnected or connecting. While connected, at most an empty keepalive, sent exactly when due. Otherwise the move message goes last and alone among transmissions, with the userinfo update exactly when pending and the cinematic skip exactly when the newest command ends one |
| ClInput.Client.constructor | src/main/Quake2/Sources/client/cl_input.c:56-62 | at start-up every action is idle, the view and clocks are zero, and the ring holds all-zero commands |
| ClInput.Client.ButtonDown | src/main/Quake2/Sources/client/cl_input.c:147-319 | each `+action` command updates exactly its action by `Press` at the current frame time and leaves the other fifteen unchanged; consistent records stay consistent |
| ClInput.Client.ButtonUp | src/main/Quake2/Sources/client/cl_input.c:147-319 | each `-action` command updates exactly its action by `Release` and leaves the other fifteen unchanged; consistent records stay consistent |
| ClInput.Client.Impulse | src/main/Quake2/Sources/client/cl_input.c:321-324 | the impulse register takes the argument |
| ClInput.Client.TurnYaw | src/main/Quake2/Sources/client/cl_input.c:373-380 | without strafe, right and left are sampled and turn the yaw by their reported fractions; with strafe, neither is touched and the yaw stays |
| ClInput.Client.TurnPitch | src/main/Quake2/Sources/client/cl_input.c:382-393 | forward and back are sampled and tilt the pitch only under keyboard-look; look up and look down always are |
| ClInput.Client.AdjustAngles | src/main/Quake2/Sources/client/cl_input.c:367-394 | the view becomes `Turned` of the old view at the frame's angle speed, using the fractions the old records report. Exactly the actions the turn reads are sampled |
| ClInput.Client.SideMove | src/main/Quake2/Sources/client/cl_input.c:407-414 | the side magnitude comes from right/left only under strafe, and from the strafe actions always; exactly those actions are sampled |
| ClInput.Client.UpMove | src/main/Quake2/Sources/client/cl_input.c:416-417 | the vertical magnitude comes from up and down, which are sampled |
| ClInput.Client.ForwardMove | src/main/Quake2/Sources/client/cl_input.c:419-423 | the forward magnitude comes from forward/back only without keyboard-look, and only then are they sampled |
| ClInput.Client.BaseMove | src/main/Quake2/Sources/client/cl_input.c:399-432 | every movement action is sampled exactly once, whatever strafe and keyboard-look do. The view is `Turned` and the command is `BaseMoveCmd` over the fractions of the records as they were before the frame |
| ClInput.Client.ClampPitch | src/main/Quake2/Sources/client/cl_input.c:434-450 | only the local pitch changes, to `ClampedPitch` of the old one |
| ClInput.Client.FigureButtons | src/main/Quake2/Sources/client/cl_input.c:457-475 | the button byte is `CmdButtons` of the old attack and use records; their press edges are consumed and nothing else changes |
| ClInput.Client.QuantizedAngles | src/main/Quake2/Sources/client/cl_input.c:489-492 | the loop quantizes the three view angles in order |
| ClInput.Client.FinishMove | src/main/Quake2/Sources/client/cl_input.c:452-499 | the command and view are `FinishFrame` of the incoming command and old view. The press edges of attack and use are consumed and the impulse register is emptied |
| ClInput.Client.MeasureFrame | src/main/Quake2/Sources/client/cl_input.c:505-509 | the frame length becomes `FrameMsec` of the two frame clocks |
| ClInput.Client.ExternalMove | src/main/Quake2/Sources/client/cl_input.c:514-515 | the mouse and controller move adjusts the command and writes back the view it returns |
| ClInput.Client.CreateCmd | src/main/Quake2/Sources/client/cl_input.c:501-522 | the command and view are `CreateFrame` of the old state. The action table becomes `ButtonsAfterFrame`, and consistent records stay consistent. The impulse is consumed, the frame length is `FrameMsec`, and the current frame time becomes the previous one |
| ClInput.Client.CenterView | src/main/Quake2/Sources/client/cl_input.c:524-527 | only the local pitch changes, to minus the server's raw correction, so the two cancel |
| ClInput.Client.ForceCenterView | src/main/Quake2/Sources/client/cl_input.c:532-535 | only the local pitch changes, to zero |
| ClInput.Client.MLookUp | src/main/Quake2/Sources/client/cl_input.c:162-166 | `-mlook` releases mouse-look and centres the view; nothing else changes |
| ClInput.Client.ToggleDown | src/main/Quake2/Sources/client/cl_input.c:188-194 | the down action becomes `Toggled`: sampled, then released if the sample reported held time and pressed otherwise |
| ClInput.Client.SendMove | src/main/Quake2/Sources/client/cl_input.c:618-678 | the in-game calls are `MoveCalls` with the move message built from the ring's three newest commands; the userinfo flag is consumed |
| ClInput.Client.Deliver | src/main/Quake2/Sources/client/cl_input.c:601-678 | the calls made are exactly `SendCalls` of the connection state and the ring; the userinfo flag is consumed exactly when the move message goes out |
| ClInput.Client.SendCmd | src/main/Quake2/Sources/client/cl_input.c:581-679 | whatever the connection state, the frame's command (`CreateFrame`) is stored in its ring slot with its time and becomes the last command. The action table and clocks advance as for `CreateCmd`, and consistent records stay consistent. The calls made are `SendCalls` over the updated ring |

## Left out

- `backends/android/system_android.c` is not part of this model. It is operating-system plumbing: executable-path lookup, directory search, standard-output redirection, game-library loading and the millisecond clock. The pipeline reads only the clocks it sets, which are inputs here: the frame time is the `sysFrameTime` field, and the current time the keepalive test reads is `Session.curtime`.
- The message-layer routines `MSG_WriteLong`, `MSG_WriteDeltaUsercmd` and `COM_BlockSequenceCRCByte`, and the quantizer `ANGLE2SHORT`, are given as function values (`Codec`, `Externals`). Their encodings are not modelled.
- `IN_Move` (mouse and controller) is a function value that returns the adjusted command and view.
- MovePackets.BuildMovePacket: requires `Bounded` (a long writes 4 bytes, a delta at most 40) so that the message fits its 128-byte buffer. The C code relies on this without checking it.
- ClInput.Client.SendMove: the userinfo update (`CL_FixUpGender`, `Cvar_Userinfo`, the reliable `clc_userinfo` write), `SCR_FinishCinematic` and `Netchan_Transmit` are recorded as calls in `calls`. Their effects are not modelled.
- CmdRing.CmdBackup: `CMD_BACKUP` is defined in a header that is not part of this model; the model fixes it at 64. The ring lemmas use only that it is a positive power of two no smaller than 4 (n-2, n-1 and n must fall in distinct slots), and `SlotIsMask` uses that it divides 256.
- ClInput.Client.SendCmd: the connection state, sequence number, clocks and frame data it reads are the `Session` parameter.
- UserCmds.UserCmd: the three movement magnitudes are reals. The float-to-short conversion of `forwardmove`, `sidemove` and `upmove` is not modelled; the angles' and the duration's float-to-int conversions are (`Trunc`).
- Floating point is modelled as real arithmetic: no rounding, no infinities.
- KButton.Fraction: with a frame length of 0 (before the first frame), C divides by zero. Positive time gives +inf and clamps to 1; negative time gives -inf and clamps to 0; 0/0 gives a NaN, modelled as 0.
- KButton.KeyUp: the unsigned `uptime - downtime` is added in unbounded integer arithmetic. The 32-bit wrap of the sum is not modelled. The same holds for the `int` held-time counter in `KButton.KeyState`.
- `Common.Bits32` models the unsigned 32-bit frame clock difference. The frame clocks themselves are unbounded integers.
- FrameInput.lightLevel: the light level is taken as a byte. The float-to-byte conversion of `cl_lightlevel` is outside the model.
- FrameInput.deltaPitch: the server's pitch correction is taken already converted by `SHORT2ANGLE`.
- `IN_DownToggleUp` does nothing in the source and is not modelled.
- `CL_InitInput` is not modelled: it only registers the console commands and variables. Each registered command is modelled by `ButtonDown`, `ButtonUp`, `Impulse`, `CenterView`, `ForceCenterView`, `MLookUp` or `ToggleDown`.
- The "three keys down" diagnostic of `KeyDown` is not modelled (console output).
- `IN_MLookDown`, `IN_KLookDown` and the other plain `+`/`-` wrappers are modelled together by `ButtonDown`/`ButtonUp` on an action id.

Behaviour the model follows exactly as the code has it, which a reader might expect otherwise:

- **Attack and use bits.** The finishing tests `state & 3` (held or press edge)
  and then clears the press edge; the release edge stays. A press and release
  within one frame is still seen through the press edge (`TapIsSeenOnce`).
  A release typed at the console overwrites the press edge, so such a tap is
  lost (`ConsoleReleaseDropsTap`).
- **Keepalive.** The keepalive is transmitted with length 0 (`Transmit([])`),
  not as one zero byte.
- **Connection states.** Any state other than disconnected, connecting and
  connected sends the move message, the uninitialized state included.
- **Frame length.** It is an unsigned difference. A frame clock that steps
  back therefore gives 200, not 1 (`UserCmds.FrameMsec`).
