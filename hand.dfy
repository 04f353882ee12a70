/**
 * The firmware's global state as one object, and its operations as methods that update that
 * state in place. Each method is proved against the Controller function that specifies it.
 */
module Firmware {
  import opened Angles
  import opened Motion
  import opened Controller

  class Hand {
    var currentMode: Mode

    var angleThumb: int
    var angleIndex: int
    var angleFingers: int

    var targetThumb: int
    var targetIndex: int
    var targetFingers: int

    // The level each button had at the previous poll.
    var prevRelaxState: Level
    var prevPinchState: Level
    var prevGraspState: Level
    var prevPointState: Level
    var prevIncState: Level
    var prevDecState: Level

    var deviceConnected: bool
    var lastBatteryUpdate: U32

    /** The postures written to the servos at the end of each motion (and at start-up), oldest first. */
    ghost var Commanded: seq<Posture>

    function Current(): Posture
      reads this
    {
      Posture(angleThumb, angleIndex, angleFingers)
    }

    function Target(): Posture
      reads this
    {
      Posture(targetThumb, targetIndex, targetFingers)
    }

    function PrevLevels(): Buttons
      reads this
    {
      Buttons(prevRelaxState, prevPinchState, prevGraspState, prevPointState, prevIncState, prevDecState)
    }

    /** The abstract value of the object. */
    function Snapshot(): State
      reads this
    {
      State(currentMode, Current(), Target(), PrevLevels(), deviceConnected, lastBatteryUpdate)
    }

    /** The controller invariant, and the servos hold the last posture written to them, which is the current one. */
    ghost predicate Valid()
      reads this
    {
      Invariant(Snapshot()) && Commanded != [] && Commanded[|Commanded| - 1] == Current()
    }

    /** Start-up: buttons sampled, all servos written to the Relax posture. */
    constructor (levels: Buttons)
      ensures Valid() && Snapshot() == Initial(levels)
      ensures Commanded == [DefaultPosture(Relax)]
    {
      currentMode := Relax;
      prevRelaxState, prevPinchState, prevGraspState := levels.relax, levels.pinch, levels.grasp;
      prevPointState, prevIncState, prevDecState := levels.point, levels.inc, levels.dec;
      angleThumb, targetThumb := DEFAULT_RELAX_T, DEFAULT_RELAX_T;
      angleIndex, targetIndex := DEFAULT_RELAX_I, DEFAULT_RELAX_I;
      angleFingers, targetFingers := DEFAULT_RELAX_F, DEFAULT_RELAX_F;
      Commanded := [Posture(DEFAULT_RELAX_T, DEFAULT_RELAX_I, DEFAULT_RELAX_F)];
      deviceConnected := false;
      lastBatteryUpdate := 0;
    }

    /**
     * Ramps the servos to the targets in MOVE_STEPS paced steps, writes the targets exactly,
     * and makes them the current angles.
     */
    method MoveAllSmooth(durationMs: int) returns (steps: nat, blockedMs: int)
      requires durationMs >= 0 && TargetSafe(Snapshot())
      modifies this
      ensures Valid()
      ensures Snapshot() == Moved(old(Snapshot()))
      ensures Commanded == old(Commanded) + [old(Target())]
      ensures steps == MOVE_STEPS && blockedMs == MOVE_STEPS * (durationMs / MOVE_STEPS)
      ensures 0 <= durationMs - blockedMs < MOVE_STEPS
    {
      steps, blockedMs := PaceMotion(durationMs);
      Commanded := Commanded + [Target()];
      angleThumb := targetThumb;
      angleIndex := targetIndex;
      angleFingers := targetFingers;
    }

    /**
     * Enters mode `m`: loads its posture as the target and moves there. `blockedMs` is how long
     * the motion paced the loop: the mode's whole ramp duration.
     */
    method SetMode(m: Mode) returns (blockedMs: int)
      requires Valid()
      modifies this
      ensures Valid()
      ensures Snapshot() == ModeChanged(old(Snapshot()), m)
      ensures Commanded == old(Commanded) + [DefaultPosture(m)]
      ensures blockedMs == MoveDuration(m)
    {
      currentMode := m;
      match m {
        case Relax =>
          targetThumb, targetIndex, targetFingers := DEFAULT_RELAX_T, DEFAULT_RELAX_I, DEFAULT_RELAX_F;
        case Pinch =>
          targetThumb, targetIndex, targetFingers := DEFAULT_PINCH_T, DEFAULT_PINCH_I, DEFAULT_PINCH_F;
        case Grasp =>
          targetThumb, targetIndex, targetFingers := DEFAULT_GRASP_T, DEFAULT_GRASP_I, DEFAULT_GRASP_F;
        case Pointing =>
          targetThumb, targetIndex, targetFingers := DEFAULT_POINT_T, DEFAULT_POINT_I, DEFAULT_POINT_F;
      }
      var steps;
      steps, blockedMs := MoveAllSmooth(MoveDuration(m));
    }

    /**
     * Shifts the targets by `delta` and moves there; in Grasp the thumb is reset to its grasp angle.
     * The motion always ramps over MOVE_DURATION_MS.
     */
    method AdjustAnglesBy(delta: int) returns (blockedMs: int)
      requires Valid()
      modifies this
      ensures Valid()
      ensures Snapshot() == Adjusted(old(Snapshot()), delta)
      ensures Commanded == old(Commanded) + [Target()]
      ensures blockedMs == MOVE_DURATION_MS
    {
      if currentMode == Grasp {
        targetThumb := DEFAULT_GRASP_T;
        targetIndex := ClampAngle(targetIndex + delta);
        targetFingers := ClampAngle(targetFingers + delta);
      } else {
        targetThumb := ClampAngle(targetThumb + delta);
        targetIndex := ClampAngle(targetIndex + delta);
        targetFingers := ClampAngle(targetFingers + delta);
      }
      var steps;
      steps, blockedMs := MoveAllSmooth(MOVE_DURATION_MS);
    }

    /** The button half of one pass of the control loop, given the levels read in this pass. */
    method PollButtons(cur: Buttons)
      requires Valid()
      modifies this
      ensures Valid()
      ensures Snapshot() == Polled(old(Snapshot()), cur)
      ensures old(Commanded) <= Commanded
      ensures NoEdge(old(PrevLevels()), cur) ==> Commanded == old(Commanded)
    {
      ghost var s0, p := Snapshot(), PrevLevels();
      OnModeButton(prevRelaxState, cur.relax, Relax);
      ghost var s1 := Snapshot();
      OnModeButton(prevPinchState, cur.pinch, Pinch);
      ghost var s2 := Snapshot();
      OnModeButton(prevGraspState, cur.grasp, Grasp);
      ghost var s3 := Snapshot();
      OnModeButton(prevPointState, cur.point, Pointing);
      ghost var s4 := Snapshot();
      OnAdjustButton(prevIncState, cur.inc, ADJUST_STEP);
      ghost var s5 := Snapshot();
      OnAdjustButton(prevDecState, cur.dec, -ADJUST_STEP);
      ghost var s6 := Snapshot();
      RememberLevels(cur);
      assert Polled(s0, cur) == s6.(prev := cur);
    }

    /** A mode button's step of the poll: on its falling edge, enter its mode. */
    method OnModeButton(prev: Level, cur: Level, m: Mode)
      requires Valid()
      modifies this
      ensures Valid()
      ensures Snapshot() == ModePressed(old(Snapshot()), Edge(prev, cur), m)
      ensures PrevLevels() == old(PrevLevels())
      ensures Commanded == old(Commanded) + (if Edge(prev, cur) then [DefaultPosture(m)] else [])
    {
      if prev == High && cur == Low {
        var blockedMs := SetMode(m);
      }
    }

    /** An INC or DEC button's step of the poll: on its falling edge, adjust unless in Relax. */
    method OnAdjustButton(prev: Level, cur: Level, delta: int)
      requires Valid()
      modifies this
      ensures Valid()
      ensures Snapshot() == AdjustPressed(old(Snapshot()), Edge(prev, cur), delta)
      ensures PrevLevels() == old(PrevLevels())
      ensures Commanded == old(Commanded) + (if Edge(prev, cur) && old(currentMode) != Relax then [Target()] else [])
    {
      if prev == High && cur == Low {
        if currentMode != Relax {
          var blockedMs := AdjustAnglesBy(delta);
        }
      }
    }

    /** Overwrites every previous button level with the one read in this pass. */
    method RememberLevels(cur: Buttons)
      requires Valid()
      modifies this`prevRelaxState, this`prevPinchState, this`prevGraspState
      modifies this`prevPointState, this`prevIncState, this`prevDecState
      ensures Valid()
      ensures Snapshot() == old(Snapshot()).(prev := cur)
    {
      prevRelaxState, prevPinchState, prevGraspState := cur.relax, cur.pinch, cur.grasp;
      prevPointState, prevIncState, prevDecState := cur.point, cur.inc, cur.dec;
    }

    /** Dispatches one trimmed wireless token. EMERGENCY_STOP and unknown tokens write nothing to the servos. */
    method HandleCommand(token: string)
      requires Valid()
      modifies this
      ensures Valid()
      ensures Snapshot() == Handled(old(Snapshot()), ParseCommand(token))
      ensures ParseCommand(token).EmergencyStop? || ParseCommand(token).Unknown? ==> Commanded == old(Commanded)
      ensures ParseCommand(token).Select? ==> Commanded == old(Commanded) + [DefaultPosture(ParseCommand(token).mode)]
      ensures (ParseCommand(token).Increase? || ParseCommand(token).Decrease?) ==>
        Commanded == old(Commanded) + (if old(currentMode) != Relax then [Target()] else [])
    {
      var blockedMs := 0;
      if token == "RELAX" {
        blockedMs := SetMode(Relax);
      } else if token == "PINCH" {
        blockedMs := SetMode(Pinch);
      } else if token == "GRASP" {
        blockedMs := SetMode(Grasp);
      } else if token == "POINTING" {
        blockedMs := SetMode(Pointing);
      } else if token == "INC" {
        if currentMode != Relax { blockedMs := AdjustAnglesBy(ADJUST_STEP); }
      } else if token == "DEC" {
        if currentMode != Relax { blockedMs := AdjustAnglesBy(-ADJUST_STEP); }
      } else if token == "EMERGENCY_STOP" {
        // An acknowledgement only: the servos stay attached and nothing moves.
      } else {
        // Unknown token: logged and otherwise ignored.
      }
    }

    /** The notification itself: sent only while a peer is connected, carrying the percentage clamped to [0, 100]. */
    method SendBattery(rawPercent: int) returns (sent: Option<int>)
      ensures deviceConnected <==> sent.Some?
      ensures sent.Some? ==> 0 <= sent.value <= 100 && sent.value == ClampPercent(rawPercent)
    {
      if !deviceConnected {
        return None;
      }
      sent := Some(ClampPercent(rawPercent));
    }

    /**
     * The battery half of one pass of the control loop, at time `now`; `rawPercent` is the mapped
     * reading the battery collaborator would produce.
     */
    method TelemetryTick(now: U32, rawPercent: int) returns (sent: Option<int>)
      requires Valid()
      modifies this`lastBatteryUpdate
      ensures Valid()
      ensures Snapshot() == Ticked(old(Snapshot()), now)
      ensures sent == if BatteryDue(old(Snapshot()), now) then Some(ClampPercent(rawPercent)) else None
    {
      sent := None;
      if deviceConnected {
        if Elapsed(now, lastBatteryUpdate) > BATTERY_PERIOD_MS {
          lastBatteryUpdate := now;
          sent := SendBattery(rawPercent);
        }
      }
    }

    /** One whole pass of the control loop: buttons first, then the battery timer. */
    method Loop(cur: Buttons, now: U32, rawPercent: int) returns (sent: Option<int>)
      requires Valid()
      modifies this
      ensures Valid()
      ensures Snapshot() == Step(old(Snapshot()), Pass(cur, now))
      ensures sent == if BatteryDue(Polled(old(Snapshot()), cur), now) then Some(ClampPercent(rawPercent)) else None
      ensures old(Commanded) <= Commanded
      ensures NoEdge(old(PrevLevels()), cur) ==> Commanded == old(Commanded)
    {
      PollButtons(cur);
      sent := TelemetryTick(now, rawPercent);
    }

    /** The transport reports that a peer attached or detached. */
    method SetConnected(up: bool)
      requires Valid()
      modifies this`deviceConnected
      ensures Valid()
      ensures Snapshot() == Connected(old(Snapshot()), up)
    {
      deviceConnected := up;
    }
  }
}
