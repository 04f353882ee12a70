# Prosthetic hand controller — Dafny model

This project models the control core of a prosthetic-hand firmware (`fuel_gauge.cpp`). The hand has
three servos (thumb, index, fingers) and four operating modes: RELAX, PINCH, GRASP and POINTING.
Each mode loads a fixed target posture. INC and DEC shift the targets by ±25 degrees and clamp them
to [0, 180]; in GRASP the thumb stays at its grasp angle. Every change of target is followed by a
blocking 25-step ramp, after which the current angles equal the targets. Two input sources drive
these operations: six active-low buttons, acted on at their falling edge only, and wireless text
commands. A battery percentage is notified to a connected peer at most once every 5 seconds.

Layout:

- `angles.dfy` (`Angles`): modes, postures, the per-mode posture table, the clamps, and the ramp durations.
- `motion.dfy` (`Motion`): the fixed 25-step pacing loop of a motion.
- `controller.dfy` (`Controller`): the controller state as a value (`State`) and one pure transition
  function per operation: mode change, adjustment, motion end state, button poll, command parse and
  dispatch, battery timer. These functions specify the methods of `Firmware.Hand`.
- `properties.dfy` (`Properties`): lemmas that relate several operations or whole input runs.
- `hand.dfy` (`Firmware`): class `Hand`, whose fields are the firmware's globals, updated in place by
  methods that are each proved to produce the `State` computed by their `Controller` function.

`Hand.Valid()` is the object invariant, and every method keeps it:

- every target lies in [0, 180];
- in GRASP the thumb target is 0;
- the current angles equal the targets;
- the last posture written to the servos at the end of a motion (ghost `Commanded`) is the current one.

Hardware inputs are parameters: button levels (`Buttons`), the millisecond clock (`now`) and the
mapped battery reading (`rawPercent`). Timestamps are 32-bit unsigned values, as `unsigned long`
is on the ESP32 target, and elapsed time is their difference modulo 2^32.

## Model

| member | source | states |
|---|---|---|
| `Angles.ClampAngle` | fuel_gauge.cpp:320-324 | the result always lies in [0, 180]; an input already in range is returned unchanged; below 0 gives 0, above 180 gives 180 |
| `Angles.ClampTo` | fuel_gauge.cpp:320-324 | saturation into [lo, hi]: the result is in the interval, and values inside are kept |
| `Angles.ClampIsNearest` | fuel_gauge.cpp:320-324 | the clamped value is the point of the interval nearest to the input |
| `Angles.ClampShiftTwice` | fuel_gauge.cpp:320-324 | two same-direction shifts with a clamp after each equal one clamped shift by their sum |
| `Angles.ClampPercent` | fuel_gauge.cpp:370-371 | the battery percentage is saturated into [0, 100]; in-range values are kept |
| `Angles.DefaultPosture` | fuel_gauge.cpp:40-54 | every mode's posture lies in [0, 180]; only GRASP puts the thumb at 0 |
| `Angles.MoveDuration` | fuel_gauge.cpp:241-272 | a mode change ramps over at most 500 ms; RELAX ramps over exactly 400 ms and is the only quicker one |
| `Motion.PaceMotion` | fuel_gauge.cpp:294-309 | the ramp always runs exactly 25 steps; it blocks for 25 × (duration / 25) ms, at most the duration and less than 25 ms short of it; a duration under 25 ms gives no pacing |
| `Controller.Initial` | fuel_gauge.cpp:144-154 | start-up state: RELAX, all six angles 180, current equals target, buttons sampled, no peer, timer 0 |
| `Controller.Moved` | fuel_gauge.cpp:311-317 | after a motion the current angles equal the targets; targets, mode and all other state are unchanged; the result is at rest exactly when the targets were safe |
| `Controller.ModeChanged` | fuel_gauge.cpp:238-273 | setMode(m) sets the mode to m and the targets to m's posture, and the hand ends on it; buttons, link and timer untouched |
| `Controller.AdjustedTarget` | fuel_gauge.cpp:279-287 | in GRASP the thumb becomes 0 whatever the delta; every other target moves by exactly delta when it stays in [0, 180] and stops at the bound it overshoots otherwise; all results lie in [0, 180] |
| `Controller.Adjusted` | fuel_gauge.cpp:278-291 | adjustAnglesBy keeps the mode, loads the adjusted targets and ends at rest on them |
| `Controller.GatedAdjust` | fuel_gauge.cpp:209-216 | INC/DEC change nothing at all in RELAX; in any other mode they are exactly an adjustment; the mode never changes |
| `Controller.ModePressed` | fuel_gauge.cpp:204-207 | a mode button enters its mode exactly when it fired, and otherwise leaves the state unchanged |
| `Controller.AdjustPressed` | fuel_gauge.cpp:209-216 | an INC/DEC button runs the gated adjustment exactly when it fired, and otherwise leaves the state unchanged |
| `Controller.Polled` | fuel_gauge.cpp:197-223 | after a poll every previous level equals the current one; a pass with no falling edge changes nothing else; the invariant is kept |
| `Controller.TokenOf` | fuel_gauge.cpp:342-354 | every recognised command has one of the seven known tokens |
| `Controller.ParseCommand` | fuel_gauge.cpp:341-360 | a token is Unknown exactly when it is not one of the seven known tokens; recognised commands carry their own token, unknown ones keep the text |
| `Controller.Handled` | fuel_gauge.cpp:341-361 | EMERGENCY_STOP and unknown tokens change nothing; INC/DEC in RELAX change nothing, and in any other mode are exactly an adjustment by +25 / -25; a mode token enters that mode with its posture as target and current; buttons, link and timer are never touched; the invariant is kept |
| `Controller.Elapsed` | fuel_gauge.cpp:228 | unsigned 32-bit `now - lastBatteryUpdate`: the plain difference, or the difference plus 2^32 once the clock has wrapped |
| `Controller.Ticked` | fuel_gauge.cpp:225-232 | when a notification is due (peer connected and more than 5000 ms elapsed) only the timestamp changes, to `now`; otherwise nothing changes |
| `Controller.Connected` | fuel_gauge.cpp:100-106 | connect/disconnect change only the connection flag |
| `Controller.Step` | fuel_gauge.cpp:195-235 | every input (a loop pass, a message, a link change) keeps the invariant |
| `Properties.RunKeepsInvariant` | fuel_gauge.cpp:195-291 | over any sequence of inputs the targets stay in [0, 180], the thumb stays at 0 while in GRASP, and current equals target |
| `Properties.ReachableStatesAreSafe` | fuel_gauge.cpp:144-154 | every state reachable from start-up satisfies that invariant |
| `Properties.GraspThumbFixed` | fuel_gauge.cpp:279-280 | any number of adjustments in GRASP, by any delta, keep the mode and leave both thumb target and thumb angle at 0 |
| `Properties.AdjustedTimesShifts` | fuel_gauge.cpp:278-291 | repeated adjustment outside RELAX acts on each adjustable angle independently and keeps the mode |
| `Properties.ClampedShiftsClosedForm` | fuel_gauge.cpp:320-324 | n clamped shifts of an in-range angle by delta equal clamp(x + n × delta) |
| `Properties.AdjustedTimesClosedForm` | fuel_gauge.cpp:281-286 | after n equal INC (or DEC) steps outside RELAX each adjustable target is clamp(start + n × delta), so a saturated target stays saturated |
| `Properties.PointingDecreaseSaturates` | fuel_gauge.cpp:283-287 | from POINTING {120, 180, 0}, repeated DEC keeps the fingers at 0 and drives all three targets to 0 from the eighth press on |
| `Properties.GraspScenario` | fuel_gauge.cpp:258-263 | GRASP from start-up gives target and current {0, 60, 45}; INC then gives {0, 85, 70} |
| `Properties.PollIdempotent` | fuel_gauge.cpp:204-223 | a second poll with unchanged levels changes nothing |
| `Properties.HeldLevelsActOnce` | fuel_gauge.cpp:204-223 | any number of polls with the same levels act exactly as the first one |
| `Properties.ButtonMatchesCommand` | fuel_gauge.cpp:204-216 | a lone button edge has exactly the effect of the matching wireless command, plus the level update |
| `Properties.PassFiringsAreFirings` | fuel_gauge.cpp:204-223 | the controller's successive poll passes fire a button exactly as often as its level sequence has falling edges, because each pass remembers the levels it read |
| `Properties.HeldButtonFiresOnce` | fuel_gauge.cpp:204-223 | a button up at the last poll, then pressed and held low over any number of poll passes, fires in exactly one of them |
| `Properties.HeldButtonStaysQuiet` | fuel_gauge.cpp:204-223 | a button already down at the last poll that stays down fires in none of the following poll passes |
| `Properties.FiringsNeedReleases` | fuel_gauge.cpp:204-223 | over any poll passes a button fires at most once more than the number of passes that saw it released |
| `Properties.ParseTokenRoundTrip` | fuel_gauge.cpp:341-356 | parsing the token of a recognised command gives back that command |
| `Properties.ElapsedAcrossWrap` | fuel_gauge.cpp:227-228 | the elapsed time stays correct when the 32-bit clock wraps |
| `Properties.DisconnectedNeverNotifies` | fuel_gauge.cpp:226-232 | with no peer, no timer check notifies and the timer state never changes |
| `Properties.NotificationsSpaced` | fuel_gauge.cpp:228-229 | after a notification at t1, the next is due exactly when more than 5000 ms have elapsed since t1 |
| `Firmware.Hand.constructor` | fuel_gauge.cpp:144-157 | the new object is the start-up state and has written the RELAX posture once |
| `Firmware.Hand.MoveAllSmooth` | fuel_gauge.cpp:293-318 | current angles become the targets; nothing else changes; the targets are written once more; 25 steps run, blocking 25 × (duration / 25) ms |
| `Firmware.Hand.SetMode` | fuel_gauge.cpp:238-276 | the new state is `ModeChanged` of the old one; the mode's posture is written; the motion blocks for the mode's ramp duration (400 ms for RELAX, 500 ms otherwise) |
| `Firmware.Hand.AdjustAnglesBy` | fuel_gauge.cpp:278-291 | the new state is `Adjusted` of the old one; the new targets are written; the motion blocks for 500 ms |
| `Firmware.Hand.OnModeButton` | fuel_gauge.cpp:204-207 | one mode-button check: the new state is `ModePressed` of the old one; the mode's posture is written exactly when the button fired, and nothing otherwise; previous levels are untouched |
| `Firmware.Hand.OnAdjustButton` | fuel_gauge.cpp:209-216 | one INC/DEC check: the new state is `AdjustPressed` of the old one; the new targets are written exactly when the button fired outside RELAX, and nothing otherwise; previous levels are untouched |
| `Firmware.Hand.RememberLevels` | fuel_gauge.cpp:218-223 | all six previous levels become the current ones; nothing else changes |
| `Firmware.Hand.PollButtons` | fuel_gauge.cpp:197-223 | the new state is `Polled` of the old one; servo writes are only appended; a pass with no falling edge writes nothing |
| `Firmware.Hand.HandleCommand` | fuel_gauge.cpp:341-361 | the new state is `Handled` of the old one for the parsed token; a mode token writes that mode's posture; INC/DEC write the new targets outside RELAX and nothing in RELAX; EMERGENCY_STOP and unknown tokens write nothing to the servos |
| `Firmware.Hand.SendBattery` | fuel_gauge.cpp:375-378 | a value is sent exactly when a peer is connected, and it is the percentage clamped to [0, 100] |
| `Firmware.Hand.TelemetryTick` | fuel_gauge.cpp:225-232 | the new state is `Ticked` of the old one; the clamped percentage is sent exactly when a notification is due |
| `Firmware.Hand.Loop` | fuel_gauge.cpp:195-235 | one loop pass polls the buttons then checks the timer; a notification, carrying the percentage clamped to [0, 100], goes out exactly when due after the poll; a pass with no falling edge writes nothing to the servos |
| `Firmware.Hand.SetConnected` | fuel_gauge.cpp:100-106 | only the connection flag changes |

## Left out

- The wireless stack: setup, advertising, re-advertising on disconnect, and the write callback's `trim` and empty-message check. `HandleCommand` receives the already trimmed, non-empty token.
- Interleaving of the asynchronous wireless callback with `loop`. This is a concurrency concern. Each operation is modelled as running to completion.
- Servo `attach`/`write`, `digitalRead`, `pinMode`, `delay` and `millis`. These are hardware. Levels and time are parameters, and only the final servo write of each motion is recorded (ghost `Commanded`).
- The 150 ms settle delay after each button edge and the 10 ms delay per loop pass. These are timing only and change no state.
- Firmware.Hand.MoveAllSmooth: the intermediate posture written at each of the 25 steps is not modelled. It is computed in floating point with truncation on conversion to `int`. The model keeps the step count, the pacing, and the exact final write and assignment.
- Motion.PaceMotion: requires a non-negative duration. Every caller passes 400 or 500 ms, and a negative pause would be converted to a huge unsigned delay.
- The battery reading: the analog sample, float voltage scaling and Arduino `map`. The mapped value is the parameter `rawPercent`, and only the final clamp to [0, 100] is modelled. The `"BAT:<percent>"` text is not built: the sent value is the clamped percentage.
- Firmware.Hand.AdjustAnglesBy: `targetX + delta` is unbounded here, whereas C `int` addition could overflow. Callers only pass ±25 to targets in [0, 180], so overflow cannot happen.
- `printStatus` and all serial logging: output only.
- The `pBatteryChar == nullptr` check in `sendBattery` (fuel_gauge.cpp:376). The characteristic is created during setup, before the first loop pass.
